/**
 * The helpers the HTML report templates call: counting tests by status, splitting class
 * names, the class colour and status icon, the error text, the sorters and the summary sums.
 */
module TemplateHelpers {
  import opened Wrappers
  import opened Strings
  import opened Sorting
  import opened TestStatuses
  import opened ExecutionData
  import opened ExecutionTracker

  // ---- countTestsByStatus ----

  function StatusName(status: TestStatus): string
  {
    match status
    case Passed => "PASSED"
    case Failed => "FAILED"
    case Disabled => "DISABLED"
    case Aborted => "ABORTED"
    case Running => "RUNNING"
    case Pending => "PENDING"
  }

  /** `TestStatus.valueOf(name)`: Java throws for a name that is no constant's. */
  function StatusNamed(name: string): (r: Result<TestStatus, string>)
    ensures r.Success? ==> StatusName(r.value) == name
  {
    if name == "PASSED" then Success(Passed)
    else if name == "FAILED" then Success(Failed)
    else if name == "DISABLED" then Success(Disabled)
    else if name == "ABORTED" then Success(Aborted)
    else if name == "RUNNING" then Success(Running)
    else if name == "PENDING" then Success(Pending)
    else Failure("IllegalArgumentException")
  }

  /** Every status is found again under its name. */
  lemma StatusNameRoundTrip(status: TestStatus)
    ensures StatusNamed(StatusName(status)) == Success(status)
  {
  }

  /** The (class, method) pairs, over all classes, whose method ended with `status`. */
  function MethodsEndedWith(classMetrics: map<string, ClassMetrics>, status: TestStatus): set<(string, string)>
  {
    set c, n | c in classMetrics && n in classMetrics[c].methodMetrics
                && classMetrics[c].methodMetrics[n].status == Some(status) :: (c, n)
  }

  /** `countTestsByStatus(classMetrics, statusName)` */
  function CountTestsByStatus(classMetrics: map<string, ClassMetrics>, statusName: string): (r: Result<nat, string>)
    ensures r.Failure? <==> StatusNamed(statusName).Failure?
  {
    var status := StatusNamed(statusName);
    if status.Failure? then Failure(status.error) else Success(|MethodsEndedWith(classMetrics, status.value)|)
  }

  /** A tracker never counts more tests of one status than method starts it recorded. */
  lemma CountWithinMethodStarts(t: TrackerView, statusName: string)
    requires t.Valid()
    ensures CountTestsByStatus(t.classMetrics, statusName).Success? ==>
      CountTestsByStatus(t.classMetrics, statusName).value <= t.totalTestMethods
  {
    var status := StatusNamed(statusName);
    if status.Success? {
      SubsetCardinality(MethodsEndedWith(t.classMetrics, status.value), t.MethodPairs());
    }
  }

  /** With one class, the count for PASSED or FAILED is that class's own count. */
  lemma CountOfOneClass(className: string, metrics: ClassMetrics)
    ensures CountTestsByStatus(map[className := metrics], "PASSED") == Success(metrics.PassedMethods())
    ensures CountTestsByStatus(map[className := metrics], "FAILED") == Success(metrics.FailedMethods())
  {
    var m := map[className := metrics];
    assert MethodsEndedWith(m, Passed) == set n | n in metrics.MethodsWithStatus(Passed) :: (className, n);
    assert MethodsEndedWith(m, Failed) == set n | n in metrics.MethodsWithStatus(Failed) :: (className, n);
    PairImageCardinality(className, metrics.MethodsWithStatus(Passed));
    PairImageCardinality(className, metrics.MethodsWithStatus(Failed));
  }

  /** Pairing every element with one fixed value keeps the number of elements. */
  lemma PairImageCardinality(c: string, s: set<string>)
    ensures |set n | n in s :: (c, n)| == |s|
  {
    if s != {} {
      var x :| x in s;
      var rest := s - {x};
      PairImageCardinality(c, rest);
      assert (set n | n in s :: (c, n)) == (set n | n in rest :: (c, n)) + {(c, x)};
    }
  }

  // ---- DurationFormatter ----

  /**
   * `DurationFormatter.format`: below one second the number of milliseconds and "ms". The
   * seconds and minutes branches format a floating-point quotient and are `None` here.
   */
  function FormatDuration(millis: int): (text: Option<string>)
    ensures text.Some? <==> millis < 1000
    ensures text.Some? ==>
      |text.value| >= 3 && text.value[|text.value| - 2..] == "ms" && text.value[..|text.value| - 2] == IntToString(millis)
  {
    if millis < 1000 then
      var t := IntToString(millis) + "ms";
      assert t[..|t| - 2] == IntToString(millis);
      Some(t)
    else None
  }

  /** Two different durations below one second are shown differently. */
  lemma FormatDurationInjective(a: int, b: int)
    requires a < 1000 && b < 1000 && a != b
    ensures FormatDuration(a) != FormatDuration(b)
  {
    var ta, tb := FormatDuration(a).value, FormatDuration(b).value;
    if ta == tb {
      assert IntToString(a) == IntToString(b);
      if a >= 0 && b >= 0 {
        NatToStringInjective(a, b);
      } else if a < 0 && b < 0 {
        assert ("-" + NatToString(-a))[1..] == NatToString(-a);
        assert ("-" + NatToString(-b))[1..] == NatToString(-b);
        NatToStringInjective(-a, -b);
      }
    }
  }

  // ---- ClassNameHelper ----

  /** `getSimpleClassName`: the text after the last '.', the whole name without one. */
  function SimpleClassName(fullClassName: string): (r: string)
    ensures '.' !in r
    ensures '.' !in fullClassName ==> r == fullClassName
    ensures |r| <= |fullClassName| && r == fullClassName[|fullClassName| - |r|..]
    ensures '.' in fullClassName ==> fullClassName[|fullClassName| - |r| - 1] == '.'
  {
    AfterLast(fullClassName, '.')
  }

  /** `getPackageName`: the text before the last '.', empty without one. */
  function PackageName(fullClassName: string): (r: string)
    ensures '.' !in fullClassName ==> r == ""
    ensures |r| < |fullClassName| || fullClassName == ""
  {
    var i := LastIndexOf(fullClassName, '.');
    if i >= 0 then fullClassName[..i] else ""
  }

  /** With a '.' in the name, package, '.' and simple name give back the full name. */
  lemma ClassNameRoundTrip(fullClassName: string)
    requires '.' in fullClassName
    ensures PackageName(fullClassName) + "." + SimpleClassName(fullClassName) == fullClassName
  {
    var i := LastIndexOf(fullClassName, '.');
    assert fullClassName == fullClassName[..i] + "." + fullClassName[i + 1..];
  }

  // ---- StatusColorHelper ----

  const Red: string := "#e74c3c"
  const Orange: string := "#f39c12"
  const Gray: string := "#95a5a6"
  const Green: string := "#27ae60"

  /** `getClassStatusColor`: failures first, then aborts, then all-disabled, else green. */
  function ClassStatusColor(d: ClassExecutions): (color: string)
    ensures color in {Red, Orange, Gray, Green}
  {
    if d.CountStatus(Failed) > 0 then Red
    else if d.CountStatus(Aborted) > 0 then Orange
    else if d.CountStatus(Disabled) > 0 && d.CountStatus(Passed) == 0 then Gray
    else Green
  }

  /** One failed test makes the class red, whatever the others did. */
  lemma AnyFailureIsRed(d: ClassExecutions, id: string)
    requires id in d.testExecutions && d.testExecutions[id].status == Failed
    ensures ClassStatusColor(d) == Red
  {
    assert id in d.WithStatus(Failed);
  }

  /** Without failures, one aborted test makes the class orange. */
  lemma AbortWithoutFailureIsOrange(d: ClassExecutions, id: string)
    requires forall t :: t in d.testExecutions ==> d.testExecutions[t].status != Failed
    requires id in d.testExecutions && d.testExecutions[id].status == Aborted
    ensures ClassStatusColor(d) == Orange
  {
    assert d.WithStatus(Failed) == {};
    assert id in d.WithStatus(Aborted);
  }

  /** A class whose tests all passed is green. */
  lemma AllPassedIsGreen(d: ClassExecutions)
    requires forall t :: t in d.testExecutions ==> d.testExecutions[t].status == Passed
    ensures ClassStatusColor(d) == Green
  {
    assert d.WithStatus(Failed) == {} && d.WithStatus(Aborted) == {} && d.WithStatus(Disabled) == {};
  }

  /** A class with tests, all of them disabled, is gray. */
  lemma AllDisabledIsGray(d: ClassExecutions, id: string)
    requires id in d.testExecutions
    requires forall t :: t in d.testExecutions ==> d.testExecutions[t].status == Disabled
    ensures ClassStatusColor(d) == Gray
  {
    assert d.WithStatus(Failed) == {} && d.WithStatus(Aborted) == {} && d.WithStatus(Passed) == {};
    assert id in d.WithStatus(Disabled);
  }

  // ---- StatusIconHelper ----

  /** `getStatusIcon`: an icon for `null` and for every status. */
  function StatusIcon(status: Option<TestStatus>): string
  {
    match status
    case None => "\U{2753}"
    case Some(Passed) => "\U{2705}"
    case Some(Failed) => "\U{274C}"
    case Some(Disabled) => "\U{23F8}\U{FE0F}"
    case Some(Aborted) => "\U{26A0}\U{FE0F}"
    case Some(Running) => "\U{1F504}"
    case Some(Pending) => "\U{23F3}"
  }

  /** Different statuses, and the missing one, get different icons. */
  lemma StatusIconsDistinct(a: Option<TestStatus>, b: Option<TestStatus>)
    requires a != b
    ensures StatusIcon(a) != StatusIcon(b)
  {
    assert StatusIcon(a)[0] != StatusIcon(b)[0] || |StatusIcon(a)| != |StatusIcon(b)|;
  }

  // ---- ErrorFormatter ----

  const StackHeader: string := "\n\nStack trace (first 5 lines):"
  const StackLinePrefix: string := "\n  at "

  /** The first line: the exception's simple class name, ": " and its message if any. */
  function ErrorHeader(t: ThrowableInfo): string
  {
    t.simpleName + ": " + (if t.message.Some? then t.message.value else "")
  }

  /** One "\n  at " line per stack element. */
  function StackLines(lines: seq<string>): string
  {
    if lines == [] then "" else StackLines(lines[..|lines| - 1]) + StackLinePrefix + lines[|lines| - 1]
  }

  /** The note on the stack elements left out, when there are more than five. */
  function MoreNote(stackLength: nat): string
  {
    if stackLength > 5 then "\n  ... " + NatToString(stackLength - 5) + " more" else ""
  }

  /** What follows the header: nothing without a stack, else the first five lines and the note. */
  function StackPart(stackTrace: seq<string>): string
  {
    if |stackTrace| > 0 then StackHeader + StackLines(stackTrace[..Min(5, |stackTrace|)]) + MoreNote(|stackTrace|)
    else ""
  }

  /** `formatError(throwable)` */
  function FormattedError(throwable: Option<ThrowableInfo>): string
  {
    if throwable.None? then "" else ErrorHeader(throwable.value) + StackPart(throwable.value.stackTrace)
  }

  /** No throwable gives no text; a throwable without a stack gives just its header. */
  lemma ErrorWithoutStack(throwable: Option<ThrowableInfo>)
    ensures throwable.None? ==> FormattedError(throwable) == ""
    ensures throwable.Some? && throwable.value.stackTrace == [] ==>
      FormattedError(throwable) == ErrorHeader(throwable.value)
  {
    if throwable.Some? && throwable.value.stackTrace == [] {
      assert ErrorHeader(throwable.value) + "" == ErrorHeader(throwable.value);
    }
  }

  /** A stack of at most five elements is listed whole, with no note. */
  lemma ShortStackListedWhole(t: ThrowableInfo)
    requires 0 < |t.stackTrace| <= 5
    ensures FormattedError(Some(t)) == ErrorHeader(t) + StackHeader + StackLines(t.stackTrace)
  {
    assert t.stackTrace[..|t.stackTrace|] == t.stackTrace;
    assert StackHeader + StackLines(t.stackTrace) + "" == StackHeader + StackLines(t.stackTrace);
  }

  /** A longer stack shows its first five elements and how many were left out. */
  lemma LongStackTruncated(t: ThrowableInfo)
    requires |t.stackTrace| > 5
    ensures FormattedError(Some(t))
      == ErrorHeader(t) + StackHeader + StackLines(t.stackTrace[..5]) + "\n  ... " + NatToString(|t.stackTrace| - 5) + " more"
  {
    var header, lines, count := ErrorHeader(t), StackHeader + StackLines(t.stackTrace[..5]), NatToString(|t.stackTrace| - 5);
    assert MoreNote(|t.stackTrace|) == "\n  ... " + count + " more";
    assert FormattedError(Some(t)) == header + (lines + MoreNote(|t.stackTrace|));
  }

  /** `formatError` as the string builder runs it. */
  method FormatError(throwable: Option<ThrowableInfo>) returns (r: string)
    ensures r == FormattedError(throwable)
  {
    if throwable.None? {
      return "";
    }
    var t := throwable.value;
    r := t.simpleName + ": ";
    if t.message.Some? {
      r := r + t.message.value;
    }
    var trace := StackTraceText(t.stackTrace);
    r := r + trace;
  }

  /** The stack part of `formatError`: the header, up to five "at" lines and the note on the rest. */
  method StackTraceText(stackTrace: seq<string>) returns (trace: string)
    ensures trace == StackPart(stackTrace)
  {
    trace := "";
    if |stackTrace| > 0 {
      trace := StackHeader;
      for i := 0 to Min(5, |stackTrace|)
        invariant trace == StackHeader + StackLines(stackTrace[..i])
      {
        StackLinesStep(stackTrace, i);
        AppendLine(StackHeader, StackLines(stackTrace[..i]), stackTrace[i]);
        trace := trace + StackLinePrefix + stackTrace[i];
      }
      if |stackTrace| > 5 {
        trace := trace + "\n  ... " + NatToString(|stackTrace| - 5) + " more";
      }
    }
  }

  lemma StackLinesStep(stackTrace: seq<string>, i: nat)
    requires i < |stackTrace|
    ensures StackLines(stackTrace[..i + 1]) == StackLines(stackTrace[..i]) + StackLinePrefix + stackTrace[i]
  {
    assert stackTrace[..i + 1][..i] == stackTrace[..i];
  }

  lemma AppendLine(header: string, lines: string, line: string)
    ensures header + lines + StackLinePrefix + line == header + (lines + StackLinePrefix + line)
  {
  }

  // ---- TestMethodSorter, TestClassSorter, ClassNameComparator ----

  lemma StringLeqTotal(a: string, b: string)
    ensures StringLeq(a, b) || StringLeq(b, a)
  {
    CompareAntisymmetric(a, b);
  }

  /** The method sorter's comparator gives at most 0: a failed test before any other, else by name. */
  predicate FailedFirst(a: ExecutionView, b: ExecutionView)
  {
    (a.status == Failed && b.status != Failed)
    || ((a.status == Failed) == (b.status == Failed) && StringLeq(TestMethodName(a.testId), TestMethodName(b.testId)))
  }

  lemma FailedFirstIsTotalPreorder()
    ensures TotalPreorder(FailedFirst)
  {
    forall a, b ensures FailedFirst(a, b) || FailedFirst(b, a) {
      StringLeqTotal(TestMethodName(a.testId), TestMethodName(b.testId));
    }
    forall a, b, c | FailedFirst(a, b) && FailedFirst(b, c) ensures FailedFirst(a, c) {
      if (a.status == Failed) == (b.status == Failed) && (b.status == Failed) == (c.status == Failed) {
        CompareTransitive(TestMethodName(a.testId), TestMethodName(b.testId), TestMethodName(c.testId));
      }
    }
  }

  /**
   * `sortTestMethods`: the same executions, every failed one before every other, and each
   * group ordered by method name.
   */
  function SortTestMethods(testMethods: seq<ExecutionView>): (r: seq<ExecutionView>)
    ensures multiset(r) == multiset(testMethods)
    ensures forall i, j :: 0 <= i < j < |r| && r[j].status == Failed ==> r[i].status == Failed
    ensures forall i, j :: 0 <= i < j < |r| && (r[i].status == Failed) == (r[j].status == Failed) ==>
      StringLeq(TestMethodName(r[i].testId), TestMethodName(r[j].testId))
  {
    FailedFirstIsTotalPreorder();
    SortBySorted(testMethods, FailedFirst);
    SortBy(testMethods, FailedFirst)
  }

  predicate ByClassName(a: ClassExecutions, b: ClassExecutions)
  {
    StringLeq(a.className, b.className)
  }

  lemma ByClassNameIsTotalPreorder()
    ensures TotalPreorder(ByClassName)
  {
    forall a, b ensures ByClassName(a, b) || ByClassName(b, a) {
      StringLeqTotal(a.className, b.className);
    }
    forall a, b, c | ByClassName(a, b) && ByClassName(b, c) ensures ByClassName(a, c) {
      CompareTransitive(a.className, b.className, c.className);
    }
  }

  /** `sortTestClasses`: the same classes ordered by class name. */
  function SortTestClasses(testClasses: seq<ClassExecutions>): (r: seq<ClassExecutions>)
    ensures multiset(r) == multiset(testClasses)
    ensures forall i, j :: 0 <= i < j < |r| ==> StringLeq(r[i].className, r[j].className)
  {
    ByClassNameIsTotalPreorder();
    SortBySorted(testClasses, ByClassName);
    SortBy(testClasses, ByClassName)
  }

  /** `ClassNameComparator.compare`: zero exactly for equal names, and antisymmetric. */
  function CompareClassNames(a: ClassExecutions, b: ClassExecutions): (r: int)
    ensures r == 0 <==> a.className == b.className
    ensures r == -Compare(b.className, a.className)
  {
    CompareZeroIffEqual(a.className, b.className);
    CompareAntisymmetric(a.className, b.className);
    Compare(a.className, b.className)
  }

  // ---- SummaryCalculator ----

  /** `getTotalTests(classes)` */
  function SumTotalTests(classes: seq<ClassExecutions>): nat
  {
    if classes == [] then 0 else SumTotalTests(classes[..|classes| - 1]) + classes[|classes| - 1].TotalTests()
  }

  /** `getPassedTests`, `getFailedTests`, `getDisabledTests`, `getAbortedTests` over classes. */
  function SumStatus(classes: seq<ClassExecutions>, status: TestStatus): nat
  {
    if classes == [] then 0 else SumStatus(classes[..|classes| - 1], status) + classes[|classes| - 1].CountStatus(status)
  }

  /** Over all classes, the four status totals never exceed the test total. */
  lemma {:induction false} SummaryStatusesWithinTotal(classes: seq<ClassExecutions>)
    ensures SumStatus(classes, Passed) + SumStatus(classes, Failed) + SumStatus(classes, Disabled)
      + SumStatus(classes, Aborted) <= SumTotalTests(classes)
  {
    if classes != [] {
      SummaryStatusesWithinTotal(classes[..|classes| - 1]);
      StatusCountsWithinTotal(classes[|classes| - 1]);
    }
  }

  /** The sum of the durations of the executions that have one. */
  function ExecutionTime(executions: seq<ExecutionView>): int
  {
    if executions == [] then 0
    else
      var last := executions[|executions| - 1];
      ExecutionTime(executions[..|executions| - 1]) + (if Duration(last).Some? then Duration(last).value else 0)
  }

  lemma {:induction false} ExecutionTimeAppend(a: seq<ExecutionView>, b: seq<ExecutionView>)
    ensures ExecutionTime(a + b) == ExecutionTime(a) + ExecutionTime(b)
  {
    if b != [] {
      var b' := b[..|b| - 1];
      assert (a + b)[..|a + b| - 1] == a + b';
      assert (a + b)[|a + b| - 1] == b[|b| - 1];
      ExecutionTimeAppend(a, b');
    } else {
      assert a + b == a;
    }
  }

  /** Executions that ended no earlier than they started add up to a non-negative time. */
  lemma {:induction false} ExecutionTimeNonNegative(executions: seq<ExecutionView>)
    requires forall e :: e in executions && e.endTime.Some? ==> e.startTime <= e.endTime.value
    ensures ExecutionTime(executions) >= 0
  {
    if executions != [] {
      ExecutionTimeNonNegative(executions[..|executions| - 1]);
    }
  }

  /** The executions of a class in the order `ids` lists their test ids. */
  function ExecutionsInOrder(d: ClassExecutions, ids: seq<string>): (r: seq<ExecutionView>)
    requires forall id :: id in ids ==> id in d.testExecutions
    ensures |r| == |ids| && forall i :: 0 <= i < |ids| ==> r[i] == d.testExecutions[ids[i]]
  {
    seq(|ids|, i requires 0 <= i < |ids| => d.testExecutions[ids[i]])
  }

  /** `ids` lists the class's test ids, each once: an iteration order of its map. */
  ghost predicate ListsIds(d: ClassExecutions, ids: seq<string>)
  {
    NoDuplicates(ids) && forall id :: id in ids <==> id in d.testExecutions
  }

  /** `getClassExecutionTime(classData)` in the iteration order `ids`. */
  function ClassExecutionTime(d: ClassExecutions, ids: seq<string>): int
    requires ListsIds(d, ids)
  {
    ExecutionTime(ExecutionsInOrder(d, ids))
  }

  /** The sum is the same in every order. */
  lemma {:induction false} ExecutionTimePermutation(a: seq<ExecutionView>, b: seq<ExecutionView>)
    requires multiset(a) == multiset(b)
    ensures ExecutionTime(a) == ExecutionTime(b)
    decreases |a|
  {
    if a != [] {
      var x := a[|a| - 1];
      var a' := a[..|a| - 1];
      var k := RemoveLast(a, b);
      var b' := b[..k] + b[k + 1..];
      assert b == b[..k] + [x] + b[k + 1..];
      ExecutionTimePermutation(a', b');
      ExecutionTimeAppend(b[..k] + [x], b[k + 1..]);
      ExecutionTimeAppend(b[..k], [x]);
      ExecutionTimeAppend(b[..k], b[k + 1..]);
      ExecutionTimeAppend(a', [x]);
    }
  }

  /** Where the last element of `a` sits in its permutation `b`; the rests are permutations too. */
  lemma RemoveLast<T>(a: seq<T>, b: seq<T>) returns (k: nat)
    requires a != [] && multiset(a) == multiset(b)
    ensures k < |b| && b[k] == a[|a| - 1]
    ensures multiset(a[..|a| - 1]) == multiset(b[..k] + b[k + 1..])
  {
    var x := a[|a| - 1];
    assert a == a[..|a| - 1] + [x];
    assert x in multiset(b);
    k :| 0 <= k < |b| && b[k] == x;
    var left, right := b[..k], b[k + 1..];
    assert b == left + [x] + right;
    assert multiset(b) == multiset(left + right) + multiset{x};
    MultisetCancel(multiset(a[..|a| - 1]), multiset(left + right), x);
  }

  lemma MultisetCancel<T>(m1: multiset<T>, m2: multiset<T>, x: T)
    requires m1 + multiset{x} == m2 + multiset{x}
    ensures m1 == m2
  {
    assert m1 == (m1 + multiset{x}) - multiset{x};
    assert m2 == (m2 + multiset{x}) - multiset{x};
  }

  /** Two listings of the same keys, each without duplicates, hold the same multiset. */
  lemma {:induction false} ListingsAgree(d: ClassExecutions, ids1: seq<string>, ids2: seq<string>)
    requires ListsIds(d, ids1) && ListsIds(d, ids2)
    ensures multiset(ExecutionsInOrder(d, ids1)) == multiset(ExecutionsInOrder(d, ids2))
  {
    ListingMultiset(ids1);
    ListingMultiset(ids2);
    assert multiset(ids1) == multiset(ids2);
    MapPreservesMultiset(d, ids1, ids2);
  }

  /** A list without duplicates holds each of its elements once. */
  lemma {:induction false} ListingMultiset(ids: seq<string>)
    requires NoDuplicates(ids)
    ensures forall x :: multiset(ids)[x] == if x in ids then 1 else 0
  {
    if ids != [] {
      var rest := ids[..|ids| - 1];
      var last := ids[|ids| - 1];
      assert NoDuplicates(rest);
      assert last !in rest;
      ListingMultiset(rest);
      assert ids == rest + [last];
    }
  }

  /** Looking up the same multiset of keys gives the same multiset of values. */
  lemma {:induction false} MapPreservesMultiset(d: ClassExecutions, ids1: seq<string>, ids2: seq<string>)
    requires forall id :: id in ids1 ==> id in d.testExecutions
    requires multiset(ids1) == multiset(ids2)
    ensures forall id :: id in ids2 ==> id in d.testExecutions
    ensures multiset(ExecutionsInOrder(d, ids1)) == multiset(ExecutionsInOrder(d, ids2))
    decreases |ids1|
  {
    assert forall id :: id in ids2 ==> id in multiset(ids1);
    if ids1 != [] {
      var n := |ids1| - 1;
      var k := RemoveLast(ids1, ids2);
      var rest1, rest2 := ids1[..n], ids2[..k] + ids2[k + 1..];
      assert forall id :: id in rest1 ==> id in ids1;
      MapPreservesMultiset(d, rest1, rest2);
      InOrderWithout(d, ids1, n);
      assert ids1[..n] + ids1[n + 1..] == rest1;
      InOrderWithout(d, ids2, k);
    }
  }

  /** Taking the key at `k` out of a listing takes its value out of the looked-up multiset. */
  lemma InOrderWithout(d: ClassExecutions, ids: seq<string>, k: nat)
    requires forall id :: id in ids ==> id in d.testExecutions
    requires k < |ids|
    ensures forall id :: id in ids[..k] + ids[k + 1..] ==> id in d.testExecutions
    ensures multiset(ExecutionsInOrder(d, ids))
      == multiset(ExecutionsInOrder(d, ids[..k] + ids[k + 1..])) + multiset{d.testExecutions[ids[k]]}
  {
    assert ids == ids[..k] + [ids[k]] + ids[k + 1..];
    InOrderAppend(d, ids[..k] + [ids[k]], ids[k + 1..]);
    InOrderAppend(d, ids[..k], [ids[k]]);
    InOrderAppend(d, ids[..k], ids[k + 1..]);
  }

  lemma InOrderAppend(d: ClassExecutions, a: seq<string>, b: seq<string>)
    requires forall id :: id in a + b ==> id in d.testExecutions
    ensures ExecutionsInOrder(d, a + b) == ExecutionsInOrder(d, a) + ExecutionsInOrder(d, b)
  {
    assert forall id :: id in a ==> id in a + b;
    assert forall id :: id in b ==> id in a + b;
  }

  /** A class's execution time does not depend on the order its map is iterated in. */
  lemma ClassExecutionTimeOrderFree(d: ClassExecutions, ids1: seq<string>, ids2: seq<string>)
    requires ListsIds(d, ids1) && ListsIds(d, ids2)
    ensures ClassExecutionTime(d, ids1) == ClassExecutionTime(d, ids2)
  {
    ListingsAgree(d, ids1, ids2);
    ExecutionTimePermutation(ExecutionsInOrder(d, ids1), ExecutionsInOrder(d, ids2));
  }

  /** `orders[i]` is an iteration order of the i-th class's executions. */
  ghost predicate ListsAll(classes: seq<ClassExecutions>, orders: seq<seq<string>>)
  {
    |orders| == |classes| && forall i :: 0 <= i < |classes| ==> ListsIds(classes[i], orders[i])
  }

  /** Every class's executions, one class after another, as the stream's `flatMap` yields them. */
  function FlatExecutions(classes: seq<ClassExecutions>, orders: seq<seq<string>>): seq<ExecutionView>
    requires ListsAll(classes, orders)
  {
    if classes == [] then []
    else
      var n := |classes| - 1;
      FlatExecutions(classes[..n], orders[..n]) + ExecutionsInOrder(classes[n], orders[n])
  }

  /** `getTotalExecutionTime(classes)` */
  function TotalExecutionTime(classes: seq<ClassExecutions>, orders: seq<seq<string>>): int
    requires ListsAll(classes, orders)
  {
    ExecutionTime(FlatExecutions(classes, orders))
  }

  /** The sum of `getClassExecutionTime` over the classes. */
  function SumClassTimes(classes: seq<ClassExecutions>, orders: seq<seq<string>>): int
    requires ListsAll(classes, orders)
  {
    if classes == [] then 0
    else
      var n := |classes| - 1;
      SumClassTimes(classes[..n], orders[..n]) + ClassExecutionTime(classes[n], orders[n])
  }

  /** The total execution time is the sum of the classes' execution times. */
  lemma {:induction false} TotalIsSumOfClassTimes(classes: seq<ClassExecutions>, orders: seq<seq<string>>)
    requires ListsAll(classes, orders)
    ensures TotalExecutionTime(classes, orders) == SumClassTimes(classes, orders)
  {
    if classes != [] {
      var n := |classes| - 1;
      TotalIsSumOfClassTimes(classes[..n], orders[..n]);
      ExecutionTimeAppend(FlatExecutions(classes[..n], orders[..n]), ExecutionsInOrder(classes[n], orders[n]));
    }
  }
}

/**
 * The test-execution tracker: per test class and per test method, when it started and ended
 * and how each method ended, with counters of the classes and method starts seen.
 */
module ExecutionTracker {
  import opened Wrappers
  import opened TestStatuses
  import opened Collections

  /** `Duration.between(start, end)` in milliseconds, zero unless both instants are set. */
  function Elapsed(startTime: Option<int>, endTime: Option<int>): (d: int)
    ensures d != 0 ==> startTime.Some? && endTime.Some?
    ensures startTime.Some? && endTime.Some? ==> startTime.value + d == endTime.value
  {
    if startTime.Some? && endTime.Some? then endTime.value - startTime.value else 0
  }

  /** `TestMethodMetrics` */
  datatype MethodMetrics = MethodMetrics(methodName: string, startTime: Option<int>, endTime: Option<int>,
                                         status: Option<TestStatus>)
  {
    /** A status is only ever set together with the end time. */
    predicate Valid()
    {
      status.Some? ==> endTime.Some?
    }

    function Duration(): int
    {
      Elapsed(startTime, endTime)
    }
  }

  function NewMethodMetrics(methodName: string): (m: MethodMetrics)
    ensures m.Valid() && m.methodName == methodName && m.status.None? && m.Duration() == 0
  {
    MethodMetrics(methodName, None, None, None)
  }

  /** `TestClassMetrics` */
  datatype ClassMetrics = ClassMetrics(className: string, methodMetrics: map<string, MethodMetrics>,
                                       startTime: Option<int>, endTime: Option<int>)
  {
    predicate Valid()
    {
      forall n :: n in methodMetrics ==> methodMetrics[n].methodName == n && methodMetrics[n].Valid()
    }

    function Duration(): int
    {
      Elapsed(startTime, endTime)
    }

    /** `recordMethodStart`: the method's metrics are created if absent, then started. */
    function RecordMethodStart(methodName: string, now: int): ClassMetrics
    {
      var m := if methodName in methodMetrics then methodMetrics[methodName] else NewMethodMetrics(methodName);
      this.(methodMetrics := methodMetrics[methodName := m.(startTime := Some(now))])
    }

    /** `recordMethodEnd`: nothing for a method never started, else its end and status. */
    function RecordMethodEnd(methodName: string, status: Option<TestStatus>, now: int): ClassMetrics
    {
      if methodName !in methodMetrics then this
      else this.(methodMetrics := methodMetrics[methodName := methodMetrics[methodName].(endTime := Some(now), status := status)])
    }

    /** `getTotalMethods()` */
    function TotalMethods(): nat
    {
      |methodMetrics|
    }

    /** The methods that ended with `status`. */
    function MethodsWithStatus(status: TestStatus): set<string>
    {
      set n | n in methodMetrics && methodMetrics[n].status == Some(status)
    }

    /** `getPassedMethods()` */
    function PassedMethods(): nat
    {
      |MethodsWithStatus(Passed)|
    }

    /** `getFailedMethods()` */
    function FailedMethods(): nat
    {
      |MethodsWithStatus(Failed)|
    }
  }

  function NewClassMetrics(className: string): (c: ClassMetrics)
    ensures c.Valid() && c.className == className && c.TotalMethods() == 0 && c.Duration() == 0
  {
    ClassMetrics(className, map[], None, None)
  }

  /** Passed and failed methods are different methods, all of them recorded. */
  lemma PassedAndFailedWithinTotal(c: ClassMetrics)
    ensures c.PassedMethods() + c.FailedMethods() <= c.TotalMethods()
  {
    var p, f := c.MethodsWithStatus(Passed), c.MethodsWithStatus(Failed);
    assert p * f == {};
    assert |p + f| == |p| + |f|;
    var keys := c.methodMetrics.Keys;
    assert keys == (p + f) + (keys - (p + f));
  }

  /**
   * Starting a method keeps the class valid and its other methods as they were; the method is
   * recorded with its start time, and its end and status are those it already had, if any.
   */
  lemma MethodStartRecorded(c: ClassMetrics, methodName: string, now: int)
    requires c.Valid()
    ensures var c' := c.RecordMethodStart(methodName, now);
      c'.Valid()
      && c'.methodMetrics.Keys == c.methodMetrics.Keys + {methodName}
      && c'.methodMetrics[methodName].startTime == Some(now)
      && (methodName !in c.methodMetrics ==> c'.methodMetrics[methodName].status.None?)
      && (methodName in c.methodMetrics ==> c'.methodMetrics[methodName].status == c.methodMetrics[methodName].status)
      && forall n :: n in c.methodMetrics && n != methodName ==> c'.methodMetrics[n] == c.methodMetrics[n]
  {
  }

  /**
   * Ending a method never started changes nothing; ending a started one sets its end time and
   * its status and keeps the class valid.
   */
  lemma MethodEndRecorded(c: ClassMetrics, methodName: string, status: Option<TestStatus>, now: int)
    requires c.Valid()
    ensures var c' := c.RecordMethodEnd(methodName, status, now);
      c'.Valid()
      && (methodName !in c.methodMetrics ==> c' == c)
      && (methodName in c.methodMetrics ==>
            c'.methodMetrics.Keys == c.methodMetrics.Keys
            && c'.methodMetrics[methodName].status == status
            && c'.methodMetrics[methodName].endTime == Some(now))
  {
  }

  /** The value held by a `TestExecutionTracker`. */
  datatype TrackerView = TrackerView(
    classMetrics: map<string, ClassMetrics>,
    totalTestClasses: nat,
    totalTestMethods: nat,
    overallStartTime: Option<int>,
    overallEndTime: Option<int>)
  {
    /** Every (class, method) pair recorded. */
    function MethodPairs(): set<(string, string)>
    {
      set c, n | c in classMetrics && n in classMetrics[c].methodMetrics :: (c, n)
    }

    /**
     * One class counter per distinct class, at least one method start counted per recorded
     * method, each class's metrics under its own name.
     */
    ghost predicate Valid()
    {
      totalTestClasses == |classMetrics|
      && totalTestMethods >= |MethodPairs()|
      && forall c :: c in classMetrics ==> classMetrics[c].className == c && classMetrics[c].Valid()
    }

    /** `recordTestClassStart`: created (and counted) the first time, started every time. */
    function RecordTestClassStart(className: string, now: int): TrackerView
    {
      var isNew := className !in classMetrics;
      var c := if isNew then NewClassMetrics(className) else classMetrics[className];
      this.(classMetrics := classMetrics[className := c.(startTime := Some(now))],
            totalTestClasses := if isNew then totalTestClasses + 1 else totalTestClasses)
    }

    function RecordTestClassEnd(className: string, now: int): TrackerView
    {
      if className !in classMetrics then this
      else this.(classMetrics := classMetrics[className := classMetrics[className].(endTime := Some(now))])
    }

    function RecordTestMethodStart(className: string, methodName: string, now: int): TrackerView
    {
      if className !in classMetrics then this
      else this.(classMetrics := classMetrics[className := classMetrics[className].RecordMethodStart(methodName, now)],
                 totalTestMethods := totalTestMethods + 1)
    }

    function RecordTestMethodEnd(className: string, methodName: string, status: Option<TestStatus>, now: int): TrackerView
    {
      if className !in classMetrics then this
      else this.(classMetrics := classMetrics[className := classMetrics[className].RecordMethodEnd(methodName, status, now)])
    }

    /** `getOverallDuration()` */
    function OverallDuration(): int
    {
      Elapsed(overallStartTime, overallEndTime)
    }
  }

  function EmptyTracker(): (t: TrackerView)
    ensures t.Valid() && t.totalTestClasses == 0 && t.totalTestMethods == 0 && t.OverallDuration() == 0
  {
    TrackerView(map[], 0, 0, None, None)
  }

  /**
   * Starting a class keeps the tracker valid, counts the class only the first time it is
   * seen and records its start time, keeping its methods.
   */
  lemma ClassStartCounted(t: TrackerView, className: string, now: int)
    requires t.Valid()
    ensures var t' := t.RecordTestClassStart(className, now);
      t'.Valid()
      && t'.classMetrics.Keys == t.classMetrics.Keys + {className}
      && t'.totalTestClasses == t.totalTestClasses + (if className in t.classMetrics then 0 else 1)
      && t'.classMetrics[className].startTime == Some(now)
      && (className in t.classMetrics ==>
            t'.classMetrics[className].methodMetrics == t.classMetrics[className].methodMetrics)
  {
    var t' := t.RecordTestClassStart(className, now);
    StartKeepsPairs(t, className, now);
    var c := if className in t.classMetrics then t.classMetrics[className] else NewClassMetrics(className);
    UpdateSize(t.classMetrics, className, c.(startTime := Some(now)));
  }

  /** Starting a class adds no (class, method) pair and removes none. */
  lemma StartKeepsPairs(t: TrackerView, className: string, now: int)
    requires t.Valid()
    ensures t.RecordTestClassStart(className, now).MethodPairs() == t.MethodPairs()
  {
    var t' := t.RecordTestClassStart(className, now);
    forall p | p in t'.MethodPairs()
      ensures p in t.MethodPairs()
    {
      var c, n := p.0, p.1;
      assert c in t'.classMetrics && n in t'.classMetrics[c].methodMetrics;
    }
    forall p | p in t.MethodPairs()
      ensures p in t'.MethodPairs()
    {
      var c, n := p.0, p.1;
      assert c in t.classMetrics && n in t.classMetrics[c].methodMetrics;
      assert t'.classMetrics[c].methodMetrics == t.classMetrics[c].methodMetrics;
    }
  }

  /** A new method pair set: at most one pair more than before. */
  lemma PairsGrowByOne(old_: set<(string, string)>, new_: set<(string, string)>, p: (string, string))
    requires new_ <= old_ + {p}
    ensures |new_| <= |old_| + 1
  {
    var u := old_ + {p};
    assert u == new_ + (u - new_);
    assert |u| <= |old_| + 1;
  }

  /**
   * Starting a method of a known class counts one more method start, even for a method name
   * already recorded, and keeps the tracker valid; for an unknown class nothing changes.
   */
  lemma MethodStartCounted(t: TrackerView, className: string, methodName: string, now: int)
    requires t.Valid()
    ensures var t' := t.RecordTestMethodStart(className, methodName, now);
      t'.Valid()
      && (className !in t.classMetrics ==> t' == t)
      && (className in t.classMetrics ==>
            t'.totalTestMethods == t.totalTestMethods + 1
            && t'.totalTestClasses == t.totalTestClasses
            && methodName in t'.classMetrics[className].methodMetrics)
  {
    if className in t.classMetrics {
      var t' := t.RecordTestMethodStart(className, methodName, now);
      MethodStartRecorded(t.classMetrics[className], methodName, now);
      assert t'.MethodPairs() <= t.MethodPairs() + {(className, methodName)};
      PairsGrowByOne(t.MethodPairs(), t'.MethodPairs(), (className, methodName));
    }
  }

  /**
   * Ending a method of an unknown class, or a method never started, changes nothing;
   * otherwise the method gets its status and the tracker stays valid.
   */
  lemma MethodEndRecordedInTracker(t: TrackerView, className: string, methodName: string,
                                   status: Option<TestStatus>, now: int)
    requires t.Valid()
    ensures var t' := t.RecordTestMethodEnd(className, methodName, status, now);
      t'.Valid()
      && (className !in t.classMetrics || methodName !in t.classMetrics[className].methodMetrics ==> t' == t)
      && (className in t.classMetrics && methodName in t.classMetrics[className].methodMetrics ==>
            t'.classMetrics[className].methodMetrics[methodName].status == status)
  {
    if className in t.classMetrics {
      var t' := t.RecordTestMethodEnd(className, methodName, status, now);
      MethodEndRecorded(t.classMetrics[className], methodName, status, now);
      assert t'.MethodPairs() == t.MethodPairs();
    }
  }

  /** Ending a class that never started changes nothing. */
  lemma ClassEndUnknownIsNoOp(t: TrackerView, className: string, now: int)
    requires t.Valid()
    ensures var t' := t.RecordTestClassEnd(className, now);
      t'.Valid()
      && (className !in t.classMetrics ==> t' == t)
      && (className in t.classMetrics ==>
            t'.classMetrics[className].endTime == Some(now) && t'.classMetrics.Keys == t.classMetrics.Keys)
  {
    var t' := t.RecordTestClassEnd(className, now);
    assert t'.MethodPairs() == t.MethodPairs();
  }

  /** The tracker object; nested metrics are values inside its map. */
  class TestExecutionTracker {
    var classMetrics: map<string, ClassMetrics>
    var totalTestClasses: nat
    var totalTestMethods: nat
    var overallStartTime: Option<int>
    var overallEndTime: Option<int>

    function View(): TrackerView
      reads this
    {
      TrackerView(classMetrics, totalTestClasses, totalTestMethods, overallStartTime, overallEndTime)
    }

    constructor ()
      ensures View() == EmptyTracker()
    {
      classMetrics := map[];
      totalTestClasses, totalTestMethods := 0, 0;
      overallStartTime, overallEndTime := None, None;
    }

    method StartTracking(now: int)
      modifies this
      ensures View() == old(View()).(overallStartTime := Some(now))
    {
      overallStartTime := Some(now);
    }

    method StopTracking(now: int)
      modifies this
      ensures View() == old(View()).(overallEndTime := Some(now))
    {
      overallEndTime := Some(now);
    }

    method RecordTestClassStart(className: string, now: int)
      modifies this
      ensures View() == old(View()).RecordTestClassStart(className, now)
    {
      if className !in classMetrics {
        totalTestClasses := totalTestClasses + 1;
        classMetrics := classMetrics[className := NewClassMetrics(className)];
      }
      classMetrics := classMetrics[className := classMetrics[className].(startTime := Some(now))];
    }

    method RecordTestClassEnd(className: string, now: int)
      modifies this
      ensures View() == old(View()).RecordTestClassEnd(className, now)
    {
      if className in classMetrics {
        classMetrics := classMetrics[className := classMetrics[className].(endTime := Some(now))];
      }
    }

    method RecordTestMethodStart(className: string, methodName: string, now: int)
      modifies this
      ensures View() == old(View()).RecordTestMethodStart(className, methodName, now)
    {
      if className in classMetrics {
        classMetrics := classMetrics[className := classMetrics[className].RecordMethodStart(methodName, now)];
        totalTestMethods := totalTestMethods + 1;
      }
    }

    method RecordTestMethodEnd(className: string, methodName: string, status: Option<TestStatus>, now: int)
      modifies this
      ensures View() == old(View()).RecordTestMethodEnd(className, methodName, status, now)
    {
      if className in classMetrics {
        classMetrics := classMetrics[className := classMetrics[className].RecordMethodEnd(methodName, status, now)];
      }
    }
  }
}

/**
 * What one TestFeature call does, stated as observations of its call trace and
 * its result: which collaborator calls happen, how often, in what order, with
 * which payloads, and what the returned result holds.
 */
module TesterProperties {
  import opened Wrappers
  import opened CallResults
  import opened Lifecycle
  import opened Tester

  /** The five steps of TestFeature that call a collaborator, in the order the source takes them. */
  datatype Stage = BeforeHooksStage | BeforeEventStage | ParentStage | AfterHooksStage | AfterEventStage

  function StageOf(c: Call): Stage
  {
    match c
    case HookDispatch(name, _, _) => if name == BEFORE then BeforeHooksStage else AfterHooksStage
    case EventDispatch(name, _) => if name == BEFORE then BeforeEventStage else AfterEventStage
    case ParentTest(_, _, _) => ParentStage
  }

  function Rank(stage: Stage): nat
  {
    match stage
    case BeforeHooksStage => 0
    case BeforeEventStage => 1
    case ParentStage => 2
    case AfterHooksStage => 3
    case AfterEventStage => 4
  }

  /** The hook stage of an event name. */
  function HooksStage(name: EventName): Stage
  {
    if name == BEFORE then BeforeHooksStage else AfterHooksStage
  }

  /** How many calls in `calls` belong to `stage`. */
  function Count(calls: seq<Call>, stage: Stage): nat
  {
    if calls == [] then 0 else (if StageOf(calls[0]) == stage then 1 else 0) + Count(calls[1..], stage)
  }

  /** Each call's stage comes strictly after the stages of the calls before it. */
  predicate InStageOrder(calls: seq<Call>)
  {
    forall i, j :: 0 <= i < j < |calls| ==> Rank(StageOf(calls[i])) < Rank(StageOf(calls[j]))
  }

  /** The results returned by the first hook dispatch for `name` in `calls`, or none when there is no such dispatch. */
  function HookResultsOf(calls: seq<Call>, name: EventName): CallResults
  {
    if calls == [] then []
    else if calls[0].HookDispatch? && calls[0].eventName == name then calls[0].returned
    else HookResultsOf(calls[1..], name)
  }

  /** The call a stage of one TestFeature call makes, when that stage makes a call at all. */
  function StageCall(setup: Setup, subject: Subject, skip: bool, stage: Stage): Call
  {
    match stage
    case BeforeHooksStage => HookDispatch(BEFORE, BeforeHooksEvent(subject), BeforeHooks(setup, subject, skip))
    case BeforeEventStage => EventDispatch(BEFORE, BeforeEvent(subject, BeforeHooks(setup, subject, skip)))
    case ParentStage => ParentTest(subject, EffectiveSkip(setup, subject, skip), Tested(setup, subject, skip))
    case AfterHooksStage =>
      HookDispatch(AFTER, AfterHooksEvent(subject, Tested(setup, subject, skip)), AfterHooks(setup, subject, skip))
    case AfterEventStage =>
      EventDispatch(AFTER, AfterEvent(subject, Composed(setup, subject, skip), AfterHooks(setup, subject, skip)))
  }

  /** Whether a stage of one TestFeature call makes its call. */
  predicate StageRuns(setup: Setup, subject: Subject, skip: bool, stage: Stage)
  {
    match stage
    case BeforeHooksStage => RunsBeforeHooks(setup, skip)
    case BeforeEventStage => setup.events.Some?
    case ParentStage => true
    case AfterHooksStage => RunsAfterHooks(setup, subject, skip)
    case AfterEventStage => setup.events.Some?
  }

  /** The trace of one TestFeature call, one part per stage. */
  function Part(setup: Setup, subject: Subject, skip: bool, stage: Stage): seq<Call>
  {
    Optional(StageRuns(setup, subject, skip, stage), StageCall(setup, subject, skip, stage))
  }

  lemma ExecuteCallsAreParts(setup: Setup, subject: Subject, skip: bool)
    ensures Execute(setup, subject, skip).calls ==
      Part(setup, subject, skip, BeforeHooksStage) + Part(setup, subject, skip, BeforeEventStage)
      + Part(setup, subject, skip, ParentStage) + Part(setup, subject, skip, AfterHooksStage)
      + Part(setup, subject, skip, AfterEventStage)
  {
    assert Part(setup, subject, skip, ParentStage) == [StageCall(setup, subject, skip, ParentStage)];
  }

  lemma {:induction false} CountConcat(a: seq<Call>, b: seq<Call>, stage: Stage)
    ensures Count(a + b, stage) == Count(a, stage) + Count(b, stage)
  {
    if a != [] {
      assert (a + b)[1..] == a[1..] + b;
      CountConcat(a[1..], b, stage);
    } else {
      assert a + b == b;
    }
  }

  lemma {:induction false} HookResultsOfConcat(a: seq<Call>, b: seq<Call>, name: EventName)
    ensures HookResultsOf(a + b, name) == if Count(a, HooksStage(name)) > 0 then HookResultsOf(a, name) else HookResultsOf(b, name)
  {
    if a != [] {
      assert (a + b)[1..] == a[1..] + b;
      HookResultsOfConcat(a[1..], b, name);
    } else {
      assert a + b == b;
    }
  }

  lemma {:induction false} NoHookResults(calls: seq<Call>, name: EventName)
    requires Count(calls, HooksStage(name)) == 0
    ensures HookResultsOf(calls, name) == []
  {
    if calls != [] {
      NoHookResults(calls[1..], name);
    }
  }

  lemma CountFive(p0: seq<Call>, p1: seq<Call>, p2: seq<Call>, p3: seq<Call>, p4: seq<Call>, stage: Stage)
    ensures Count(p0 + p1 + p2 + p3 + p4, stage) ==
      Count(p0, stage) + Count(p1, stage) + Count(p2, stage) + Count(p3, stage) + Count(p4, stage)
  {
    CountConcat(p0 + p1 + p2 + p3, p4, stage);
    CountConcat(p0 + p1 + p2, p3, stage);
    CountConcat(p0 + p1, p2, stage);
    CountConcat(p0, p1, stage);
  }

  lemma CountPart(setup: Setup, subject: Subject, skip: bool, part: Stage, stage: Stage)
    ensures Count(Part(setup, subject, skip, part), stage) == if StageRuns(setup, subject, skip, part) && part == stage then 1 else 0
  {
    var p := Part(setup, subject, skip, part);
    if p != [] {
      assert p[1..] == [];
    }
  }

  /** How many calls each stage of one TestFeature call makes. */
  lemma {:induction false} CountExecute(setup: Setup, subject: Subject, skip: bool, stage: Stage)
    ensures Count(Execute(setup, subject, skip).calls, stage) == if StageRuns(setup, subject, skip, stage) then 1 else 0
  {
    var p0 := Part(setup, subject, skip, BeforeHooksStage);
    var p1 := Part(setup, subject, skip, BeforeEventStage);
    var p2 := Part(setup, subject, skip, ParentStage);
    var p3 := Part(setup, subject, skip, AfterHooksStage);
    var p4 := Part(setup, subject, skip, AfterEventStage);
    ExecuteCallsAreParts(setup, subject, skip);
    CountPart(setup, subject, skip, BeforeHooksStage, stage);
    CountPart(setup, subject, skip, BeforeEventStage, stage);
    CountPart(setup, subject, skip, ParentStage, stage);
    CountPart(setup, subject, skip, AfterHooksStage, stage);
    CountPart(setup, subject, skip, AfterEventStage, stage);
    CountFive(p0, p1, p2, p3, p4, stage);
  }

  lemma InParts(p0: seq<Call>, p1: seq<Call>, p2: seq<Call>, p3: seq<Call>, p4: seq<Call>, c: Call)
    requires c in p0 + p1 + p2 + p3 + p4
    ensures c in p0 || c in p1 || c in p2 || c in p3 || c in p4
  {
  }

  lemma PartCallsOfOwnStage(setup: Setup, subject: Subject, skip: bool, stage: Stage)
    ensures forall c :: c in Part(setup, subject, skip, stage) ==> c == StageCall(setup, subject, skip, stage) && StageOf(c) == stage
  {
  }

  /** Every call of one TestFeature call is the call of its own stage. */
  lemma CallsByStage(setup: Setup, subject: Subject, skip: bool)
    ensures forall c :: c in Execute(setup, subject, skip).calls ==> c == StageCall(setup, subject, skip, StageOf(c))
  {
    var calls := Execute(setup, subject, skip).calls;
    var p0 := Part(setup, subject, skip, BeforeHooksStage);
    var p1 := Part(setup, subject, skip, BeforeEventStage);
    var p2 := Part(setup, subject, skip, ParentStage);
    var p3 := Part(setup, subject, skip, AfterHooksStage);
    var p4 := Part(setup, subject, skip, AfterEventStage);
    ExecuteCallsAreParts(setup, subject, skip);
    forall c | c in calls
      ensures c == StageCall(setup, subject, skip, StageOf(c))
    {
      InParts(p0, p1, p2, p3, p4, c);
      var stage :| c in Part(setup, subject, skip, stage);
      PartCallsOfOwnStage(setup, subject, skip, stage);
    }
  }

  /** The hook results recorded in the trace of one TestFeature call are the BEFORE and AFTER hook results it used. */
  lemma {:induction false} HookResultsOfExecute(setup: Setup, subject: Subject, skip: bool)
    ensures HookResultsOf(Execute(setup, subject, skip).calls, BEFORE) == BeforeHooks(setup, subject, skip)
    ensures HookResultsOf(Execute(setup, subject, skip).calls, AFTER) == AfterHooks(setup, subject, skip)
  {
    var calls := Execute(setup, subject, skip).calls;
    if RunsBeforeHooks(setup, skip) {
      assert calls[0] == StageCall(setup, subject, skip, BeforeHooksStage);
    } else {
      CountExecute(setup, subject, skip, BeforeHooksStage);
      NoHookResults(calls, BEFORE);
    }
    if RunsAfterHooks(setup, subject, skip) {
      var p0 := Part(setup, subject, skip, BeforeHooksStage);
      var p1 := Part(setup, subject, skip, BeforeEventStage);
      var p2 := Part(setup, subject, skip, ParentStage);
      var p3 := Part(setup, subject, skip, AfterHooksStage);
      var p4 := Part(setup, subject, skip, AfterEventStage);
      ExecuteCallsAreParts(setup, subject, skip);
      assert calls == (p0 + p1 + p2) + (p3 + p4);
      CountPart(setup, subject, skip, BeforeHooksStage, AfterHooksStage);
      CountPart(setup, subject, skip, BeforeEventStage, AfterHooksStage);
      CountPart(setup, subject, skip, ParentStage, AfterHooksStage);
      CountConcat(p0 + p1, p2, AfterHooksStage);
      CountConcat(p0, p1, AfterHooksStage);
      HookResultsOfConcat(p0 + p1 + p2, p3 + p4, AFTER);
      assert (p3 + p4)[0] == StageCall(setup, subject, skip, AfterHooksStage);
    } else {
      CountExecute(setup, subject, skip, AfterHooksStage);
      NoHookResults(calls, AFTER);
    }
  }

  /**
   * BEFORE hooks are dispatched at most once, with a payload carrying the subject
   * only, and exactly when the caller did not ask to skip and a hook dispatcher is set.
   */
  lemma BeforeHooksDispatchedIff(setup: Setup, subject: Subject, skip: bool)
    ensures var calls := Execute(setup, subject, skip).calls;
      && Count(calls, BeforeHooksStage) == (if !skip && setup.hooks.Some? then 1 else 0)
      && forall c :: c in calls && StageOf(c) == BeforeHooksStage ==> c.event == FeatureTested(subject, None, None)
  {
    CountExecute(setup, subject, skip, BeforeHooksStage);
    CallsByStage(setup, subject, skip);
  }

  /**
   * The inherited step runs exactly once, on the same subject, and the skip flag it
   * receives is the caller's flag or'ed with "some BEFORE hook threw".
   */
  lemma ParentTestedOnceWithEffectiveSkip(setup: Setup, subject: Subject, skip: bool)
    ensures var calls := Execute(setup, subject, skip).calls;
      && Count(calls, ParentStage) == 1
      && forall c :: c in calls && c.ParentTest? ==>
           && c.subject == subject
           && c.tested == setup.parent(subject.suite, subject.environment, subject.feature, c.skip)
           && (c.skip <==> skip || HasExceptions(HookResultsOf(calls, BEFORE)))
  {
    CountExecute(setup, subject, skip, ParentStage);
    CallsByStage(setup, subject, skip);
    HookResultsOfExecute(setup, subject, skip);
  }

  /**
   * When a BEFORE hook that ran threw, the hooks ran because the caller did not ask
   * to skip and a hook dispatcher is set; the inherited step is then told to skip,
   * no AFTER hook runs, and the returned hook results are the BEFORE ones alone.
   */
  lemma FailingBeforeHookForcesSkip(setup: Setup, subject: Subject, skip: bool)
    requires HasExceptions(HookResultsOf(Execute(setup, subject, skip).calls, BEFORE))
    ensures !skip && setup.hooks.Some?
    ensures var x := Execute(setup, subject, skip);
      && (forall c :: c in x.calls && c.ParentTest? ==> c.skip)
      && Count(x.calls, AfterHooksStage) == 0
      && x.result.hookCallResults == HookResultsOf(x.calls, BEFORE)
  {
    CountExecute(setup, subject, skip, AfterHooksStage);
    CallsByStage(setup, subject, skip);
    HookResultsOfExecute(setup, subject, skip);
  }

  /**
   * AFTER hooks are dispatched at most once, exactly when the skip flag handed to
   * the inherited step is off and a hook dispatcher is set; their payload carries
   * the subject and the inherited step's own result.
   */
  lemma AfterHooksDispatchedIff(setup: Setup, subject: Subject, skip: bool)
    ensures var calls := Execute(setup, subject, skip).calls;
      forall p :: p in calls && p.ParentTest? ==>
        && Count(calls, AfterHooksStage) == (if !p.skip && setup.hooks.Some? then 1 else 0)
        && forall c :: c in calls && StageOf(c) == AfterHooksStage ==> c.event == FeatureTested(subject, Some(p.tested), None)
  {
    var calls := Execute(setup, subject, skip).calls;
    CountExecute(setup, subject, skip, AfterHooksStage);
    CallsByStage(setup, subject, skip);
    forall p | p in calls && p.ParentTest?
      ensures p.skip == EffectiveSkip(setup, subject, skip) && p.tested == Tested(setup, subject, skip)
    {
      assert StageOf(p) == ParentStage;
    }
  }

  /** The scenario results returned are those of the inherited step: same elements, same order. */
  lemma ScenarioResultsPassThrough(setup: Setup, subject: Subject, skip: bool)
    ensures var x := Execute(setup, subject, skip);
      && x.result.HookedFeatureTestResult?
      && forall p :: p in x.calls && p.ParentTest? ==> x.result.scenarioTestResults == p.tested.scenarioTestResults
  {
    CallsByStage(setup, subject, skip);
  }

  /**
   * The returned hook results are the BEFORE hook results followed by the AFTER
   * ones, and report an exception exactly when some hook threw.
   */
  lemma MergedHookResults(setup: Setup, subject: Subject, skip: bool)
    ensures var x := Execute(setup, subject, skip);
      var before := HookResultsOf(x.calls, BEFORE);
      var after := HookResultsOf(x.calls, AFTER);
      && x.result.HookedFeatureTestResult?
      && |x.result.hookCallResults| == |before| + |after|
      && x.result.hookCallResults[..|before|] == before
      && x.result.hookCallResults[|before|..] == after
      && (HasExceptions(x.result.hookCallResults) <==> HasExceptions(before) || HasExceptions(after))
  {
    HookResultsOfExecute(setup, subject, skip);
    var before := BeforeHooks(setup, subject, skip);
    var after := AfterHooks(setup, subject, skip);
    MergeKeepsOrder(before, after);
    MergeHasExceptions(before, after);
  }

  /**
   * The BEFORE event is sent exactly once when an event dispatcher is set, whatever
   * the skip flag; its payload has no result and carries the BEFORE hook results,
   * empty when no BEFORE hooks were dispatched.
   */
  lemma BeforeEventOnce(setup: Setup, subject: Subject, skip: bool)
    ensures var calls := Execute(setup, subject, skip).calls;
      && Count(calls, BeforeEventStage) == (if setup.events.Some? then 1 else 0)
      && forall c :: c in calls && StageOf(c) == BeforeEventStage ==>
           c.event == FeatureTested(subject, None, Some(HookResultsOf(calls, BEFORE)))
  {
    CountExecute(setup, subject, skip, BeforeEventStage);
    CallsByStage(setup, subject, skip);
    HookResultsOfExecute(setup, subject, skip);
  }

  /**
   * The AFTER event is sent exactly once when an event dispatcher is set, whatever
   * the skip flag; its payload carries the result that is returned and only the
   * AFTER hook results, not the merged ones.
   */
  lemma AfterEventOnce(setup: Setup, subject: Subject, skip: bool)
    ensures var x := Execute(setup, subject, skip);
      && Count(x.calls, AfterEventStage) == (if setup.events.Some? then 1 else 0)
      && forall c :: c in x.calls && StageOf(c) == AfterEventStage ==>
           c.event == FeatureTested(subject, Some(x.result), Some(HookResultsOf(x.calls, AFTER)))
  {
    CountExecute(setup, subject, skip, AfterEventStage);
    CallsByStage(setup, subject, skip);
    HookResultsOfExecute(setup, subject, skip);
  }

  /** Every call in `calls` belongs to a stage ranked below `bound`. */
  predicate RanksBelow(calls: seq<Call>, bound: nat)
  {
    forall i :: 0 <= i < |calls| ==> Rank(StageOf(calls[i])) < bound
  }

  /** Appending at most one call of stage rank `bound` to calls ranked below `bound` keeps the stage order. */
  lemma InStageOrderAppend(a: seq<Call>, b: seq<Call>, bound: nat)
    requires InStageOrder(a) && RanksBelow(a, bound)
    requires |b| <= 1 && forall j :: 0 <= j < |b| ==> Rank(StageOf(b[j])) == bound
    ensures InStageOrder(a + b) && RanksBelow(a + b, bound + 1)
  {
    forall i, j | 0 <= i < j < |a + b|
      ensures Rank(StageOf((a + b)[i])) < Rank(StageOf((a + b)[j]))
    {
      assert j >= |a| ==> i < |a|;
    }
  }

  /** A part of the trace holds at most one call, and only of its own stage. */
  lemma PartShape(setup: Setup, subject: Subject, skip: bool, stage: Stage)
    ensures var p := Part(setup, subject, skip, stage);
      |p| <= 1 && forall j :: 0 <= j < |p| ==> Rank(StageOf(p[j])) == Rank(stage)
  {
  }

  /** The calls follow the order BEFORE hooks, BEFORE event, inherited step, AFTER hooks, AFTER event. */
  lemma CallsInStageOrder(setup: Setup, subject: Subject, skip: bool)
    ensures InStageOrder(Execute(setup, subject, skip).calls)
  {
    var p0 := Part(setup, subject, skip, BeforeHooksStage);
    var p1 := Part(setup, subject, skip, BeforeEventStage);
    var p2 := Part(setup, subject, skip, ParentStage);
    var p3 := Part(setup, subject, skip, AfterHooksStage);
    var p4 := Part(setup, subject, skip, AfterEventStage);
    PartShape(setup, subject, skip, BeforeHooksStage);
    PartShape(setup, subject, skip, BeforeEventStage);
    PartShape(setup, subject, skip, ParentStage);
    PartShape(setup, subject, skip, AfterHooksStage);
    PartShape(setup, subject, skip, AfterEventStage);
    InStageOrderAppend([], p0, 0);
    assert [] + p0 == p0;
    InStageOrderAppend(p0, p1, 1);
    InStageOrderAppend(p0 + p1, p2, 2);
    InStageOrderAppend(p0 + p1 + p2, p3, 3);
    InStageOrderAppend(p0 + p1 + p2 + p3, p4, 4);
    ExecuteCallsAreParts(setup, subject, skip);
  }

  /** With neither dispatcher set the tester only runs the inherited step and adds no hook results. */
  lemma NoDispatchersPassThrough(parent: ParentTester, subject: Subject, skip: bool)
    ensures var x := Execute(Setup(parent, None, None), subject, skip);
      var tested := parent(subject.suite, subject.environment, subject.feature, skip);
      && x.calls == [ParentTest(subject, skip, tested)]
      && x.result == HookedFeatureTestResult(tested.scenarioTestResults, [])
  {
  }

  /**
   * When the caller asks to skip, no hook is dispatched at all, the inherited step
   * is told to skip, no hook results are returned, and every event sent carries
   * empty hook results.
   */
  lemma CallerSkipSuppressesHooks(setup: Setup, subject: Subject, skip: bool)
    requires skip
    ensures var x := Execute(setup, subject, skip);
      && Count(x.calls, BeforeHooksStage) == 0
      && Count(x.calls, AfterHooksStage) == 0
      && (forall c :: c in x.calls && c.ParentTest? ==> c.skip)
      && x.result.hookCallResults == []
      && forall c :: c in x.calls && c.EventDispatch? ==> c.event.hookCallResults == Some([])
  {
    CountExecute(setup, subject, skip, BeforeHooksStage);
    CountExecute(setup, subject, skip, AfterHooksStage);
    CallsByStage(setup, subject, skip);
  }
}

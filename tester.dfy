/**
 * The hookable feature tester: it wraps the inherited feature-testing step with
 * BEFORE/AFTER hooks and BEFORE/AFTER FeatureTested events.
 *
 * Execute is the specification of one TestFeature call: the result it returns
 * and the collaborator calls it makes, in order. HookableFeatureTester.TestFeature
 * is proved to do exactly that; TesterProperties proves what that means.
 */
module Tester {
  import opened Wrappers
  import opened CallResults
  import opened Lifecycle

  /** The inherited FeatureTester::testFeature, which runs (or skips) the feature's scenarios. */
  type ParentTester = (Suite, Environment, FeatureNode, bool) -> FeatureTestResult

  /** What a tester works with: the inherited step and the two dispatchers, each possibly unset. */
  datatype Setup = Setup(parent: ParentTester, hooks: Option<HookDispatcher>, events: Option<EventDispatcher>)

  /** One collaborator call the tester made, with what it returned. */
  datatype Call =
    | HookDispatch(eventName: EventName, event: FeatureTested, returned: CallResults)
    | EventDispatch(eventName: EventName, event: FeatureTested)
    | ParentTest(subject: Subject, skip: bool, tested: FeatureTestResult)

  /** What one TestFeature call returns and the calls it makes, oldest first. */
  datatype Execution = Execution(result: FeatureTestResult, calls: seq<Call>)

  /** The payload the BEFORE hooks receive: the subject only. */
  function BeforeHooksEvent(subject: Subject): FeatureTested
  {
    FeatureTested(subject, None, None)
  }

  /** The payload the AFTER hooks receive: the subject and the inherited step's result. */
  function AfterHooksEvent(subject: Subject, tested: FeatureTestResult): FeatureTested
  {
    FeatureTested(subject, Some(tested), None)
  }

  /** The payload of the BEFORE event: the subject, no result, and the BEFORE hook results. */
  function BeforeEvent(subject: Subject, hookCallResults: CallResults): FeatureTested
  {
    FeatureTested(subject, None, Some(hookCallResults))
  }

  /** The payload of the AFTER event: the subject, the composed result, and the AFTER hook results. */
  function AfterEvent(subject: Subject, result: FeatureTestResult, hookCallResults: CallResults): FeatureTested
  {
    FeatureTested(subject, Some(result), Some(hookCallResults))
  }

  /** Whether the BEFORE hooks are dispatched: the caller does not skip and a hook dispatcher is set. */
  predicate RunsBeforeHooks(setup: Setup, skip: bool)
  {
    !skip && setup.hooks.Some?
  }

  /** The BEFORE hook results, or none when the BEFORE hooks are not dispatched. */
  function BeforeHooks(setup: Setup, subject: Subject, skip: bool): CallResults
  {
    if RunsBeforeHooks(setup, skip) then setup.hooks.value.dispatchEventHooks(BEFORE, BeforeHooksEvent(subject)) else []
  }

  /** The skip flag handed to the inherited step: the caller's, or forced by a failing BEFORE hook. */
  predicate EffectiveSkip(setup: Setup, subject: Subject, skip: bool)
  {
    skip || HasExceptions(BeforeHooks(setup, subject, skip))
  }

  /** The inherited step's result, run with the effective skip flag. */
  function Tested(setup: Setup, subject: Subject, skip: bool): FeatureTestResult
  {
    setup.parent(subject.suite, subject.environment, subject.feature, EffectiveSkip(setup, subject, skip))
  }

  /** Whether the AFTER hooks are dispatched: the effective skip is off and a hook dispatcher is set. */
  predicate RunsAfterHooks(setup: Setup, subject: Subject, skip: bool)
  {
    !EffectiveSkip(setup, subject, skip) && setup.hooks.Some?
  }

  /** The AFTER hook results, or none when the AFTER hooks are not dispatched. */
  function AfterHooks(setup: Setup, subject: Subject, skip: bool): CallResults
  {
    if RunsAfterHooks(setup, subject, skip)
    then setup.hooks.value.dispatchEventHooks(AFTER, AfterHooksEvent(subject, Tested(setup, subject, skip)))
    else []
  }

  /** The returned result: the inherited step's scenario results and the merged hook results. */
  function Composed(setup: Setup, subject: Subject, skip: bool): FeatureTestResult
  {
    HookedFeatureTestResult(
      Tested(setup, subject, skip).scenarioTestResults,
      Merge(BeforeHooks(setup, subject, skip), AfterHooks(setup, subject, skip)))
  }

  /** `[c]` when `present` holds, otherwise nothing. */
  function Optional(present: bool, c: Call): seq<Call>
  {
    if present then [c] else []
  }

  /** One TestFeature call: the composed result and the collaborator calls, in the order they are made. */
  function Execute(setup: Setup, subject: Subject, skip: bool): Execution
  {
    var before := BeforeHooks(setup, subject, skip);
    var after := AfterHooks(setup, subject, skip);
    var tested := Tested(setup, subject, skip);
    var result := Composed(setup, subject, skip);
    Execution(
      result,
      Optional(RunsBeforeHooks(setup, skip), HookDispatch(BEFORE, BeforeHooksEvent(subject), before))
      + Optional(setup.events.Some?, EventDispatch(BEFORE, BeforeEvent(subject, before)))
      + [ParentTest(subject, EffectiveSkip(setup, subject, skip), tested)]
      + Optional(RunsAfterHooks(setup, subject, skip), HookDispatch(AFTER, AfterHooksEvent(subject, tested), after))
      + Optional(setup.events.Some?, EventDispatch(AFTER, AfterEvent(subject, result, after))))
  }

  /**
   * Regrouping a trace extension; TestFeature calls it at each step so that the
   * calls made so far stay in the form `calls0 + trace` without the solver searching for it.
   */
  lemma AppendAssociative(a: seq<Call>, b: seq<Call>, c: seq<Call>)
    ensures a + b + c == a + (b + c)
  {
  }

  /** Feature tester dispatching BEFORE/AFTER hooks and events around the inherited test step. */
  class HookableFeatureTester {
    /** The inherited scenario-running step. */
    const parentTestFeature: ParentTester
    /** Null until SetHookDispatcher is called. */
    var hookDispatcher: Option<HookDispatcher>
    /** Null until SetEventDispatcher is called. */
    var eventDispatcher: Option<EventDispatcher>
    /** Every collaborator call made by this tester, oldest first. */
    ghost var calls: seq<Call>

    constructor (parentTestFeature: ParentTester)
      ensures this.parentTestFeature == parentTestFeature
      ensures hookDispatcher == None && eventDispatcher == None
      ensures calls == []
    {
      this.parentTestFeature := parentTestFeature;
      hookDispatcher := None;
      eventDispatcher := None;
      calls := [];
    }

    method SetHookDispatcher(hookDispatcher: HookDispatcher)
      modifies this`hookDispatcher
      ensures this.hookDispatcher == Some(hookDispatcher)
    {
      this.hookDispatcher := Some(hookDispatcher);
    }

    method SetEventDispatcher(eventDispatcher: EventDispatcher)
      modifies this`eventDispatcher
      ensures this.eventDispatcher == Some(eventDispatcher)
    {
      this.eventDispatcher := Some(eventDispatcher);
    }

    /** Tests one feature, dispatching hooks and events around the inherited step. */
    method TestFeature(suite: Suite, environment: Environment, feature: FeatureNode, skip: bool := false) returns (result: FeatureTestResult)
      modifies this`calls
      ensures result == Execute(Setup(parentTestFeature, hookDispatcher, eventDispatcher), Subject(suite, environment, feature), skip).result
      ensures calls == old(calls) + Execute(Setup(parentTestFeature, hookDispatcher, eventDispatcher), Subject(suite, environment, feature), skip).calls
    {
      ghost var setup, subject := Setup(parentTestFeature, hookDispatcher, eventDispatcher), Subject(suite, environment, feature);
      ghost var calls0 := calls;

      var beforeHooks: CallResults;
      if !skip && hookDispatcher.Some? {
        beforeHooks := DispatchBeforeHooks(suite, environment, feature);
      } else {
        beforeHooks := [];
      }
      assert beforeHooks == BeforeHooks(setup, subject, skip);
      ghost var trace := Optional(RunsBeforeHooks(setup, skip), HookDispatch(BEFORE, BeforeHooksEvent(subject), beforeHooks));
      assert calls == calls0 + trace;

      ghost var step := Optional(eventDispatcher.Some?, EventDispatch(BEFORE, BeforeEvent(subject, beforeHooks)));
      if eventDispatcher.Some? {
        DispatchBeforeEvent(suite, environment, feature, beforeHooks);
      }
      AppendAssociative(calls0, trace, step);
      trace := trace + step;

      var effectiveSkip := skip || HasExceptions(beforeHooks);
      var tested := parentTestFeature(suite, environment, feature, effectiveSkip);
      step := [ParentTest(subject, effectiveSkip, tested)];
      calls := calls + step;
      AppendAssociative(calls0, trace, step);
      trace := trace + step;

      var afterHooks: CallResults;
      if !effectiveSkip && hookDispatcher.Some? {
        afterHooks := DispatchAfterHooks(suite, environment, feature, tested);
      } else {
        afterHooks := [];
      }
      assert afterHooks == AfterHooks(setup, subject, skip);
      step := Optional(RunsAfterHooks(setup, subject, skip), HookDispatch(AFTER, AfterHooksEvent(subject, tested), afterHooks));
      AppendAssociative(calls0, trace, step);
      trace := trace + step;

      result := HookedFeatureTestResult(tested.scenarioTestResults, Merge(beforeHooks, afterHooks));
      step := Optional(eventDispatcher.Some?, EventDispatch(AFTER, AfterEvent(subject, result, afterHooks)));
      if eventDispatcher.Some? {
        DispatchAfterEvent(suite, environment, feature, result, afterHooks);
      }
      AppendAssociative(calls0, trace, step);
      trace := trace + step;
      assert trace == Execute(setup, subject, skip).calls;
      assert result == Execute(setup, subject, skip).result;
    }

    /** Notifies listeners of BEFORE with the subject, no result, and the BEFORE hook results. */
    method DispatchBeforeEvent(suite: Suite, environment: Environment, feature: FeatureNode, hookCallResults: CallResults)
      requires eventDispatcher.Some?
      modifies this`calls
      ensures calls == old(calls) + [EventDispatch(BEFORE, BeforeEvent(Subject(suite, environment, feature), hookCallResults))]
    {
      var event := FeatureTested(Subject(suite, environment, feature), None, Some(hookCallResults));
      calls := calls + [EventDispatch(BEFORE, event)];
    }

    /** Runs the BEFORE hooks with a payload carrying the subject only. */
    method DispatchBeforeHooks(suite: Suite, environment: Environment, feature: FeatureNode) returns (hookCallResults: CallResults)
      requires hookDispatcher.Some?
      modifies this`calls
      ensures hookCallResults == hookDispatcher.value.dispatchEventHooks(BEFORE, BeforeHooksEvent(Subject(suite, environment, feature)))
      ensures calls == old(calls) + [HookDispatch(BEFORE, BeforeHooksEvent(Subject(suite, environment, feature)), hookCallResults)]
    {
      var event := FeatureTested(Subject(suite, environment, feature), None, None);
      hookCallResults := hookDispatcher.value.dispatchEventHooks(BEFORE, event);
      calls := calls + [HookDispatch(BEFORE, event, hookCallResults)];
    }

    /** Runs the AFTER hooks with a payload carrying the subject and the inherited step's result. */
    method DispatchAfterHooks(suite: Suite, environment: Environment, feature: FeatureNode, result: FeatureTestResult)
      returns (hookCallResults: CallResults)
      requires hookDispatcher.Some?
      modifies this`calls
      ensures hookCallResults == hookDispatcher.value.dispatchEventHooks(AFTER, AfterHooksEvent(Subject(suite, environment, feature), result))
      ensures calls == old(calls) + [HookDispatch(AFTER, AfterHooksEvent(Subject(suite, environment, feature), result), hookCallResults)]
    {
      var event := FeatureTested(Subject(suite, environment, feature), Some(result), None);
      hookCallResults := hookDispatcher.value.dispatchEventHooks(AFTER, event);
      calls := calls + [HookDispatch(AFTER, event, hookCallResults)];
    }

    /** Notifies listeners of AFTER with the subject, the composed result and the AFTER hook results. */
    method DispatchAfterEvent(
      suite: Suite, environment: Environment, feature: FeatureNode,
      result: FeatureTestResult, hookCallResults: CallResults)
      requires eventDispatcher.Some?
      modifies this`calls
      ensures calls == old(calls) + [EventDispatch(AFTER, AfterEvent(Subject(suite, environment, feature), result, hookCallResults))]
    {
      var event := FeatureTested(Subject(suite, environment, feature), Some(result), Some(hookCallResults));
      calls := calls + [EventDispatch(AFTER, event)];
    }
  }
}

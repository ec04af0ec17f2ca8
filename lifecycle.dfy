/**
 * The values a feature test passes around: the tested subject, the results,
 * the FeatureTested event payload and the two dispatchers the tester may be given.
 * The tester never looks inside the subject or the scenario results; they are
 * opaque records here.
 */
module Lifecycle {
  import opened Wrappers
  import opened CallResults

  /** The test suite the feature belongs to. */
  datatype Suite = Suite(name: string)

  /** The environment the feature's steps run in. */
  datatype Environment = Environment(name: string)

  /** The parsed feature file being tested. */
  datatype FeatureNode = FeatureNode(title: string, file: string)

  /** What is being tested: a feature, in a suite, in an environment. The tester only passes it on. */
  datatype Subject = Subject(suite: Suite, environment: Environment, feature: FeatureNode)

  /** The outcome of one scenario of the feature, as the scenario tester reports it. */
  datatype ScenarioTestResult = ScenarioTestResult(title: string, resultCode: int)

  /**
   * The result of testing a feature: the per-scenario results, and, once hooks
   * were dispatched around it, the results of those hook calls as well.
   */
  datatype FeatureTestResult =
    | FeatureTestResult(scenarioTestResults: seq<ScenarioTestResult>)
    | HookedFeatureTestResult(scenarioTestResults: seq<ScenarioTestResult>, hookCallResults: CallResults)

  /** The two lifecycle points of a feature. */
  datatype EventName = BEFORE | AFTER

  /**
   * The FeatureTested event payload: the tested subject (suite, environment and
   * feature), the test result when there is one, and the hook call results when the
   * payload reports them. An absent field stands for the PHP constructor's null default.
   */
  datatype FeatureTested = FeatureTested(
    subject: Subject,
    testResult: Option<FeatureTestResult>,
    hookCallResults: Option<CallResults>)

  /**
   * The hook dispatcher: runs every hook registered for an event name and returns
   * their outcomes. It never throws; a failing hook is a Failure among the results.
   */
  datatype HookDispatcher = HookDispatcher(dispatchEventHooks: (EventName, FeatureTested) -> CallResults)

  /**
   * The event dispatcher that notifies listeners. Its effect is recorded in the
   * tester's call trace; its listeners are not part of this model.
   */
  datatype EventDispatcher = EventDispatcher(name: string)
}

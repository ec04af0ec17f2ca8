# Behat hookable feature tester, modelled in Dafny

Behat's `HookableFeatureTester` wraps the inherited `FeatureTester::testFeature` step
with BEFORE/AFTER hooks and BEFORE/AFTER `FeatureTested` events. One `testFeature` call
works as follows:
1. It runs the BEFORE hooks, unless the caller asked to skip or no hook dispatcher is set.
2. It notifies the BEFORE event, if an event dispatcher is set.
3. It skips the scenarios when the caller asked to or when a BEFORE hook threw.
4. It runs the inherited step.
5. It runs the AFTER hooks, unless the step was skipped or no hook dispatcher is set.
6. It returns a `HookedFeatureTestResult` that holds the step's scenario results and the merged hook results.
7. It notifies the AFTER event, if an event dispatcher is set; the payload carries only the AFTER hook results.

Files:

- `wrappers.dfy`: `Option`, which stands for a nullable PHP property.
- `call_results.dfy`: the hook call results the tester consumes, with `HasExceptions` and `Merge`.
- `lifecycle.dfy`: the values passed around. These are the suite, environment and feature (together, the `Subject`), the feature and scenario test results, the `FeatureTested` payload, and the two dispatchers.
- `tester.dfy`: the `HookableFeatureTester` class and `Execute`, the specification of one `TestFeature` call.
  - The class has two `Option` dispatcher fields, which the setters assign.
  - The inherited step is a constant field.
  - A ghost `calls` trace records every collaborator call with what it returned.
  - `Execute(setup, subject, skip)` gives the result and the calls, in order.
  - `TestFeature` follows the source statement by statement and is proved to return `Execute`'s result and to append exactly `Execute`'s calls to the trace.
- `tester_properties.dfy`: what `Execute` means, as observations of the trace.
  - `Count` gives how often each stage calls out.
  - `InStageOrder` gives the order of the calls.
  - `HookResultsOf` gives what a hook dispatch returned.
  - A lemma about those observations states each property of `testFeature`.

Collaborators are parameters of the model:
- The inherited `FeatureTester::testFeature` is a function from (suite, environment, feature, skip) to a feature test result.
- `HookDispatcher::dispatchEventHooks` is a function from (event name, payload) to call results.
- The event dispatcher is an opaque value. Notifying it only appends to the trace.

`CallResults` is not part of this model. The model assumes the following about it:
- It is an ordered sequence of `Success | Failure(exception)` outcomes.
- `hasExceptions` scans it for a failure. The scan is proved equal to "some element is a failure".
- `merge(a, b)` returns a new collection: the elements of `a`, then those of `b`.

## Model

| member | source | states |
|---|---|---|
| Tester.HookableFeatureTester.constructor | src/Behat/Behat/Tester/HookableFeatureTester.php:30-39 | a new tester has neither a hook dispatcher nor an event dispatcher set, and has made no calls |
| Tester.HookableFeatureTester.SetHookDispatcher | src/Behat/Behat/Tester/HookableFeatureTester.php:46-49 | afterwards the hook dispatcher is the one given; nothing else changes |
| Tester.HookableFeatureTester.SetEventDispatcher | src/Behat/Behat/Tester/HookableFeatureTester.php:56-59 | afterwards the event dispatcher is the one given; nothing else changes |
| Tester.HookableFeatureTester.TestFeature | src/Behat/Behat/Tester/HookableFeatureTester.php:64-84 | returns the result `Execute` specifies for the current dispatchers and appends to the trace exactly the calls `Execute` specifies, in order |
| Tester.HookableFeatureTester.DispatchBeforeEvent | src/Behat/Behat/Tester/HookableFeatureTester.php:94-103 | notifies BEFORE once, with a payload of the subject, no result, and the given hook results |
| Tester.HookableFeatureTester.DispatchBeforeHooks | src/Behat/Behat/Tester/HookableFeatureTester.php:114-119 | runs the BEFORE hooks once, with a payload of the subject only, and returns what the hook dispatcher returned |
| Tester.HookableFeatureTester.DispatchAfterHooks | src/Behat/Behat/Tester/HookableFeatureTester.php:131-140 | runs the AFTER hooks once, with a payload of the subject and the given result, and returns what the hook dispatcher returned |
| Tester.HookableFeatureTester.DispatchAfterEvent | src/Behat/Behat/Tester/HookableFeatureTester.php:151-161 | notifies AFTER once, with a payload of the subject, the given result and the given hook results |
| CallResults.HasExceptionsIffSomeFailure | src/Behat/Behat/Tester/HookableFeatureTester.php:71 | hook results have exceptions exactly when some hook call failed |
| CallResults.MergeKeepsOrder | src/Behat/Behat/Tester/HookableFeatureTester.php:79 | merging holds both inputs whole: first the first one's results in order, then the second one's |
| CallResults.MergeHasExceptions | src/Behat/Behat/Tester/HookableFeatureTester.php:79 | merged results have exceptions exactly when either part has |
| TesterProperties.CountExecute | src/Behat/Behat/Tester/HookableFeatureTester.php:66-81 | each of the five stages calls out once when its guard holds and never otherwise; the inherited step always runs once |
| TesterProperties.HookResultsOfExecute | src/Behat/Behat/Tester/HookableFeatureTester.php:66-76 | the BEFORE and AFTER hook results the tester goes on to use are the ones the recorded hook dispatches returned, and empty when no dispatch happened |
| TesterProperties.BeforeHooksDispatchedIff | src/Behat/Behat/Tester/HookableFeatureTester.php:66-68 | BEFORE hooks are dispatched exactly once if the caller did not ask to skip and a hook dispatcher is set, and never otherwise; their payload carries the subject only |
| TesterProperties.ParentTestedOnceWithEffectiveSkip | src/Behat/Behat/Tester/HookableFeatureTester.php:71-72 | the inherited step runs exactly once, on the same subject, and is told to skip exactly when the caller asked to or some BEFORE hook threw |
| TesterProperties.FailingBeforeHookForcesSkip | src/Behat/Behat/Tester/HookableFeatureTester.php:66-79 | if a BEFORE hook that ran threw, then the caller did not ask to skip and a hook dispatcher is set; the inherited step is told to skip, no AFTER hooks run, and the returned hook results are just the BEFORE ones |
| TesterProperties.AfterHooksDispatchedIff | src/Behat/Behat/Tester/HookableFeatureTester.php:74-76 | AFTER hooks are dispatched exactly once if the skip handed to the inherited step was off and a hook dispatcher is set, and never otherwise; their payload carries the subject and the step's own result |
| TesterProperties.ScenarioResultsPassThrough | src/Behat/Behat/Tester/HookableFeatureTester.php:77-78 | the result is a hooked feature result whose scenario results are the inherited step's, same elements in the same order |
| TesterProperties.MergedHookResults | src/Behat/Behat/Tester/HookableFeatureTester.php:77-80 | the returned hook results are the BEFORE hook results followed by the AFTER ones, and have exceptions exactly when some hook threw |
| TesterProperties.BeforeEventOnce | src/Behat/Behat/Tester/HookableFeatureTester.php:69 | the BEFORE event is notified exactly once if an event dispatcher is set, skip or not, with no result and the BEFORE hook results (empty when those hooks did not run) |
| TesterProperties.AfterEventOnce | src/Behat/Behat/Tester/HookableFeatureTester.php:81 | the AFTER event is notified exactly once if an event dispatcher is set, skip or not, with the very result returned and only the AFTER hook results |
| TesterProperties.CallsInStageOrder | src/Behat/Behat/Tester/HookableFeatureTester.php:66-81 | the calls come in the order BEFORE hooks, BEFORE event, inherited step, AFTER hooks, AFTER event |
| TesterProperties.NoDispatchersPassThrough | src/Behat/Behat/Tester/HookableFeatureTester.php:66-83 | with neither dispatcher set, the only call is the inherited step with the caller's skip flag; the result has its scenario results and no hook results |
| TesterProperties.CallerSkipSuppressesHooks | src/Behat/Behat/Tester/HookableFeatureTester.php:66-81 | when the caller asks to skip, no hook runs, the inherited step is told to skip, no hook results are returned, and every event carries empty hook results |

## Left out

- The inherited `FeatureTester::testFeature` is not part of this model. It is a function of its four arguments: the scenario run it performs, and any state it reads or changes, are not modelled.
- `HookDispatcher` is not part of this model. `dispatchEventHooks` is a deterministic function of event name and payload. Hook discovery, hook side effects, and the capture of hook exceptions into call results are not modelled.
- The Symfony event dispatcher and its listeners are not part of this model. A notification only records the call, so a listener cannot change the payload. An exception thrown by a listener would leave `testFeature` early; that path is not modelled.
- `CallResults` is not part of this model. Its sequence representation, `hasExceptions` and `merge` are the assumptions stated above, not verified facts.
- `Suite`, `Environment`, `FeatureNode`, `FeatureTested` and the result classes are plain records. The payload groups suite, environment and feature into one `Subject`, and their getters are not modelled.
- PHP type hints, the setters' role in dependency injection, and event-name constants other than the two BEFORE/AFTER tags are not modelled.
- The `calls` trace is ghost. It records the order and arguments of collaborator calls; it does not exist in the source.

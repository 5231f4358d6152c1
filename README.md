# Detox core, modelled in Dafny

Detox is an end-to-end testing framework for mobile apps. The parts modelled here are:

- **The iOS invocation dispatcher** (`InvokeHandler`). It receives a parsed test message and resolves the message's elements through a matcher. It picks one element by index, defaulting to 0. Then it does one of three things:
  - reads the attributes of *all* matched elements;
  - decodes an action from the positional `params` list and dispatches it, either once or in a check-then-act loop driven by a nested "while" expectation;
  - decodes an expectation and asks the expectation delegate to evaluate it.
- **The tester's action delegate** (`ActionDelegate`). It has the type guard and dispatch skeleton of `act`. It also shapes the `getAttributes` result by element count: an error for 0, the bare attributes for 1, `{"elements": [...]}` for more.
- **The older test runner's expectation objects** (`Expectation.swift`). This covers:
  - the kind-to-class and kind-to-key tables;
  - the factory that builds an expectation from a dictionary;
  - the `NOT ` description format;
  - the choice between equal and not-equal comparison.
- **The user-notification parser.** It checks a notification's trigger type and copies it to the top level.
- **The iOS simulator allocation driver** (`SimulatorAllocDriver.js`). It:
  - sorts query results into free and taken devices against the device registry;
  - narrows both groups to the OS of the first taken device;
  - reuses a free device or creates one from a prototype;
  - records launch information;
  - frees a device;
  - cleans up the session's devices.
- **The `detox test` command's runner** (`TestRunnerCommand.js`). It builds the environment handed to the test runner, and runs the retry loop that re-runs only the files that failed but not permanently.

Several things are modelled as values rather than performed:
- Swift runtime traps (forced unwraps and casts, `fatalError`) are an explicit error value: `Crash` or `Fatal`, or `None` for a factory.
- The element matcher, the delegates, the white-box message handler, the simulator tooling and the test runner process are oracles passed in as function values.
- On the iOS side, each oracle answers from the log of calls made so far. So an element's state may change as actions run.

Objects that update their own state are classes with `modifies` clauses. Each method is proved against a specification function of the old state:
- `InvokeHandler.Handler` appends to its call log;
- `SimulatorAlloc.DeviceRegistry` and `SimulatorAlloc.SimulatorAllocDriver` update the registry sets, the launch info and the effect log;
- `TestRunner.TestRunnerCommand` covers the CLI-derived environment, the retry loop and the session index.

Files, in dependency order:
- `wrappers.dfy`: Option and Result.
- `values.dfy`: the JSON-like values and the casts on them.
- `text.dfy`: ASCII upper-casing and prefixes.
- `invoke_types.dfy`, `invoke_decode.dfy`, `invoke_handler.dfy`: the dispatcher.
- `action_delegate.dfy`: the action delegate.
- `runner_expectation.dfy`: the test runner's expectation objects.
- `notification_parser.dfy`: the notification parser.
- `simulator_alloc.dfy`: simulator allocation.
- `test_runner.dfy`: the `detox test` runner.

## Model

| member | source | states |
|---|---|---|
| Values.AsNumber | detox/ios/DetoxInvokeHandler/DetoxInvokeHandler/InvokeHandler.swift:218 | `as? NSNumber` succeeds exactly on integers, doubles and booleans (bridged as 1 or 0), giving their numeric value |
| Values.AsIntDict | detox/ios/DetoxInvokeHandler/DetoxInvokeHandler/InvokeHandler.swift:201 | `as! [String: Int]` succeeds exactly on a dictionary whose every value is an integer, keeping keys and values |
| Values.AsStrings | detox/ios/DetoxTestRunner/Invocation/Expectation.swift:63 | `as? [String]` succeeds exactly on an array of strings, keeping them in order |
| Text.Upper | detox/ios/DetoxTestRunner/Invocation/Expectation.swift:90 | upper-casing keeps the length and maps every character through the ASCII case map |
| Text.UpperIsUpper | detox/local-cli/testCommand/TestRunnerCommand.js:58 | an upper-cased key contains no lower-case letter |
| InvokeTypes.RawValuesRoundTrip | detox/ios/DetoxInvokeHandler/DetoxInvokeHandler/InvokeHandler.swift:230-233 | parsing the raw value of a direction, speed or edge gives that value back |
| InvokeDecode.Nth | detox/ios/DetoxInvokeHandler/DetoxInvokeHandler/InvokeHandler.swift:209 | `params![i]` yields the i-th param exactly when params are present and long enough, and traps otherwise |
| InvokeDecode.TapAction | detox/ios/DetoxInvokeHandler/DetoxInvokeHandler/InvokeHandler.swift:196-206 | no params give a plain tap; otherwise it succeeds exactly when the first param is an integer dictionary holding `x` and `y`, and taps at that point |
| InvokeDecode.MultiTapAction | detox/ios/DetoxInvokeHandler/DetoxInvokeHandler/InvokeHandler.swift:208-210 | succeeds exactly when the first param is a non-negative integer, which becomes the tap count |
| InvokeDecode.LongPressAction | detox/ios/DetoxInvokeHandler/DetoxInvokeHandler/InvokeHandler.swift:212-227 | no params give a plain long press; otherwise fewer than eight params trap, and eight give a drag whose target is the fourth param and whose numbers are the others' numeric values |
| InvokeDecode.SwipeAction | detox/ios/DetoxInvokeHandler/DetoxInvokeHandler/InvokeHandler.swift:229-242 | succeeds exactly with at least five params, a known direction first and a known speed second whenever it is a string; the fields are the direction, that speed and the numeric values of params 3-5 |
| InvokeDecode.ScreenshotAction | detox/ios/DetoxInvokeHandler/DetoxInvokeHandler/InvokeHandler.swift:244-246 | no params give an unnamed screenshot; an empty list traps on the index; otherwise the name is the first param when it is a string |
| InvokeDecode.TypeTextAction | detox/ios/DetoxInvokeHandler/DetoxInvokeHandler/InvokeHandler.swift:248-250 | succeeds exactly when the first param is a string, and types it |
| InvokeDecode.ReplaceTextAction | detox/ios/DetoxInvokeHandler/DetoxInvokeHandler/InvokeHandler.swift:252-254 | succeeds exactly when the first param is a string, and replaces the text with it |
| InvokeDecode.ScrollToAction | detox/ios/DetoxInvokeHandler/DetoxInvokeHandler/InvokeHandler.swift:256-258 | succeeds exactly when the first param is a known edge name, and scrolls to that edge |
| InvokeDecode.ScrollAction | detox/ios/DetoxInvokeHandler/DetoxInvokeHandler/InvokeHandler.swift:260-267 | succeeds exactly with at least four params, a number offset and a known direction; the start point is the numeric values of params 3-4 |
| InvokeDecode.SetColumnToValueAction | detox/ios/DetoxInvokeHandler/DetoxInvokeHandler/InvokeHandler.swift:269-274 | succeeds exactly when the first param is a non-negative integer and the second a string, and sets that column to that value; a negative index traps |
| InvokeDecode.SetDatePickerAction | detox/ios/DetoxInvokeHandler/DetoxInvokeHandler/InvokeHandler.swift:276-283 | succeeds exactly when the first two params are strings and the formatter gives a date for them; that date is set |
| InvokeDecode.PinchAction | detox/ios/DetoxInvokeHandler/DetoxInvokeHandler/InvokeHandler.swift:302-308 | succeeds exactly when the params are a number, a known speed name and a number, and pinches with those |
| InvokeDecode.AdjustSliderAction | detox/ios/DetoxInvokeHandler/DetoxInvokeHandler/InvokeHandler.swift:310-312 | succeeds exactly when the first param is a number, which becomes the position |
| InvokeDecode.BuildAction | detox/ios/DetoxInvokeHandler/DetoxInvokeHandler/InvokeHandler.swift:129-182 | every built action is of the requested kind; failures are traps, except that `getAttributes` always fails with `invalidActionHandlingRequest`; `tapBackspaceKey`, `tapReturnKey` and `clearText` build whatever the params are |
| InvokeDecode.DecodeEncode | detox/ios/DetoxInvokeHandler/DetoxInvokeHandler/InvokeHandler.swift:129-312 | decoding the positional layout of any decodable action gives that action back |
| InvokeDecode.TapOnAxisRoundTrip | detox/ios/DetoxInvokeHandler/DetoxInvokeHandler/InvokeHandler.swift:201-205 | an `{x, y}` dictionary decodes to the tap at that point |
| InvokeDecode.SwipeRoundTrip | detox/ios/DetoxInvokeHandler/DetoxInvokeHandler/InvokeHandler.swift:229-242 | the swipe layout decodes to the same swipe, with or without a speed |
| InvokeDecode.ScrollRoundTrip | detox/ios/DetoxInvokeHandler/DetoxInvokeHandler/InvokeHandler.swift:256-267 | both scroll layouts decode to the same scroll |
| InvokeDecode.BuiltIsDecodable | detox/ios/DetoxInvokeHandler/DetoxInvokeHandler/InvokeHandler.swift:129-182 | conversely, whatever the builder yields is of the requested kind and has a layout |
| InvokeDecode.VisibilityExpectation | detox/ios/DetoxInvokeHandler/DetoxInvokeHandler/InvokeHandler.swift:355-358 | `toBeVisible` takes the first numeric param as its threshold, and 75 when there is none |
| InvokeDecode.SliderPositionExpectation | detox/ios/DetoxInvokeHandler/DetoxInvokeHandler/InvokeHandler.swift:370-374 | the position is the first number, else a trap; a tolerance exists only with exactly two params and a numeric second one |
| InvokeDecode.BuildExpectation | detox/ios/DetoxInvokeHandler/DetoxInvokeHandler/InvokeHandler.swift:333-353 | the expectation is of the requested kind; `toBeVisible`, `toBeFocused` and `toExist` always build; failures are traps |
| InvokeDecode.DecodeEncodeExpectation | detox/ios/DetoxInvokeHandler/DetoxInvokeHandler/InvokeHandler.swift:333-374 | decoding the params layout of any expectation gives it back |
| InvokeDecode.ExpectationDefaults | detox/ios/DetoxInvokeHandler/DetoxInvokeHandler/InvokeHandler.swift:355-374 | with no params, `toBeVisible` uses threshold 75 and a slider expectation traps |
| InvokeHandler.ElementAt | detox/ios/DetoxInvokeHandler/DetoxInvokeHandler/InvokeHandler.swift:81-88 | succeeds exactly when the index (0 when absent) is within bounds, then gives that element; otherwise `noElementAtIndex` |
| InvokeHandler.DefaultIndexIsZero | detox/ios/DetoxInvokeHandler/DetoxInvokeHandler/InvokeHandler.swift:82 | an absent index selects exactly like index 0, and fails on no matches |
| InvokeHandler.IsTruthy | detox/ios/DetoxInvokeHandler/DetoxInvokeHandler/InvokeHandler.swift:323 | false exactly when modifiers are present and contain `not`; absent modifiers give true |
| InvokeHandler.FindSpec | detox/ios/DetoxInvokeHandler/DetoxInvokeHandler/InvokeHandler.swift:76-79 | the result is the matcher's answer for this predicate and log, and exactly that call is appended |
| InvokeHandler.ExpectLogs | detox/ios/DetoxInvokeHandler/DetoxInvokeHandler/InvokeHandler.swift:316-331 | an expectation that does not build traps with nothing asked; one that builds is asked once with the modifiers' truthiness and the given timeout; the logged failure is the delegate's answer, and it is the result's error |
| InvokeHandler.ActOnceLogs | detox/ios/DetoxInvokeHandler/DetoxInvokeHandler/InvokeHandler.swift:120-127 | an action that does not build fails with nothing dispatched; one that builds is dispatched exactly once; the logged failure is the delegate's answer, and it is the result's error |
| InvokeHandler.CheckCalls | detox/ios/DetoxInvokeHandler/DetoxInvokeHandler/InvokeHandler.swift:184-194 | the nested check resolves its predicate first, never acts, always evaluates with no timeout, and ends with a passing evaluation when it passes |
| InvokeHandler.CheckKeepsActs | detox/ios/DetoxInvokeHandler/DetoxInvokeHandler/InvokeHandler.swift:184-194 | the nested check adds no action to the log |
| InvokeHandler.ActOnceAddsOne | detox/ios/DetoxInvokeHandler/DetoxInvokeHandler/InvokeHandler.swift:120-127 | a successful single dispatch adds exactly one action |
| InvokeHandler.LoopEnds | detox/ios/DetoxInvokeHandler/DetoxInvokeHandler/InvokeHandler.swift:106-117 | the loop stops with the check's outcome when the check passes or traps, and with the action's failure when the action fails |
| InvokeHandler.LoopRetries | detox/ios/DetoxInvokeHandler/DetoxInvokeHandler/InvokeHandler.swift:108-113 | a thrown check followed by a successful action goes round again from the new log |
| InvokeHandler.LoopExtends | detox/ios/DetoxInvokeHandler/DetoxInvokeHandler/InvokeHandler.swift:106-117 | for any check and action, a stopped loop has only appended to the log, began with the check, and on success ended with a passing check |
| InvokeHandler.LoopShape | detox/ios/DetoxInvokeHandler/DetoxInvokeHandler/InvokeHandler.swift:106-117 | the polling loop first calls the matcher for the nested predicate; on success its last call is a passing evaluation without a timeout, so it never acts after the check passed |
| InvokeHandler.LoopFuelMonotone | detox/ios/DetoxInvokeHandler/DetoxInvokeHandler/InvokeHandler.swift:106-117 | the outcome of a loop that stops does not depend on the bound on rounds |
| InvokeHandler.LoopCounts | detox/ios/DetoxInvokeHandler/DetoxInvokeHandler/InvokeHandler.swift:106-117 | for any check and action: when the check passes exactly once k actions have run, the loop performs k actions and stops with success |
| InvokeHandler.LoopActsUntilCheckPasses | detox/ios/DetoxInvokeHandler/DetoxInvokeHandler/InvokeHandler.swift:106-117 | the same for `handleAction`'s loop: k failed checks then a pass means exactly k dispatched actions |
| InvokeHandler.HandleSpec | detox/ios/DetoxInvokeHandler/DetoxInvokeHandler/InvokeHandler.swift:41-72 | a matcher error or a bad index ends the handling with only the lookup done, for every message kind, `getAttributes` included; a missing action is `invalidActionType`; `getAttributes` returns the delegate's value over all matched elements; only `getAttributes` returns a value |
| InvokeHandler.HandleShape | detox/ios/DetoxInvokeHandler/DetoxInvokeHandler/InvokeHandler.swift:42-43 | every message is first resolved through the matcher, and handling only appends to the log |
| InvokeHandler.Handler.constructor | detox/ios/DetoxInvokeHandler/DetoxInvokeHandler/InvokeHandler.swift:23-31 | keeps the delegates, with an empty call log |
| InvokeHandler.Handler.FindElements | detox/ios/DetoxInvokeHandler/DetoxInvokeHandler/InvokeHandler.swift:76-79 | returns the matcher's answer and logs it, as `FindSpec` says |
| InvokeHandler.Handler.GetAttributes | detox/ios/DetoxInvokeHandler/DetoxInvokeHandler/InvokeHandler.swift:92-94 | returns the delegate's attributes for the elements and logs the call |
| InvokeHandler.Handler.HandleExpectation | detox/ios/DetoxInvokeHandler/DetoxInvokeHandler/InvokeHandler.swift:316-331 | result and new log are exactly those of `ExpectSpec` |
| InvokeHandler.Handler.HandleWhileMessage | detox/ios/DetoxInvokeHandler/DetoxInvokeHandler/InvokeHandler.swift:184-194 | result and new log are exactly those of `CheckSpec` |
| InvokeHandler.Handler.HandleActionOnce | detox/ios/DetoxInvokeHandler/DetoxInvokeHandler/InvokeHandler.swift:120-127 | result and new log are exactly those of `ActOnceSpec` |
| InvokeHandler.Handler.HandleAction | detox/ios/DetoxInvokeHandler/DetoxInvokeHandler/InvokeHandler.swift:98-118 | one dispatch without a while message, otherwise the polling loop, as `HandleActionSpec` says |
| InvokeHandler.Handler.Poll | detox/ios/DetoxInvokeHandler/DetoxInvokeHandler/InvokeHandler.swift:106-117 | the `while (true)` loop ends with exactly the result and log of `LoopSpec` |
| InvokeHandler.Handler.Handle | detox/ios/DetoxInvokeHandler/DetoxInvokeHandler/InvokeHandler.swift:41-72 | result and new log are exactly those of `HandleSpec` |
| ActionDelegate.AskWhiteBox | detox/ios/DetoxTester/DetoxTester/Actions/ActionDelegate.swift:40 | exactly the question, followed by an assertion of `completed` exactly when the handler answered; no gesture |
| ActionDelegate.Act | detox/ios/DetoxTester/DetoxTester/Actions/ActionDelegate.swift:26-156 | the type guard comes before the readiness wait; a gesture is made at most once, on this element with this action, exactly when the app did not handle the action; `notXCUIElement` exactly for a non-element or a drag onto one; screenshot and getAttributes are fatal; only `tapKey` and the dragging long press may throw, and they fail exactly when the gesture threw; a drag the app performed succeeds; every other action on an element succeeds; after the readiness wait, a drag or a date-picker action sends its white-box request |
| ActionDelegate.DispatchShape | detox/ios/DetoxTester/DetoxTester/Actions/ActionDelegate.swift:44-155 | the dispatch after the wait gestures exactly when it falls back to XCUITest, with this action only, at most once |
| ActionDelegate.DispatchFailure | detox/ios/DetoxTester/DetoxTester/Actions/ActionDelegate.swift:44-155 | the dispatch fails with `notXCUIElement` exactly on a drag onto a non-element, fatally exactly for screenshot and getAttributes, by a throw only in `tapKey` or the drag, and never otherwise |
| ActionDelegate.DispatchThrows | detox/ios/DetoxTester/DetoxTester/Actions/ActionDelegate.swift:58-142 | `tapKey` and an XCUITest drag fail exactly when the gesture threw, so the error is never swallowed; a drag the application performed succeeds; a drag or a date-picker action first sends its white-box request |
| ActionDelegate.XCUIElementsKeepsAll | detox/ios/DetoxTester/DetoxTester/Actions/ActionDelegate.swift:162-166 | nothing is dropped exactly when every value is an element, and then the ids keep their order |
| ActionDelegate.AttributesOf | detox/ios/DetoxTester/DetoxTester/Actions/ActionDelegate.swift:168-170 | one attributes value per element, in order |
| ActionDelegate.GetAttributes | detox/ios/DetoxTester/DetoxTester/Actions/ActionDelegate.swift:159-182 | `notXCUIElement` exactly when some value is not an element; fatal exactly on no elements; one element gives its attributes unwrapped; more elements always succeed with `{"elements": [...]}` of the same length and order |
| RunnerExpectation.KeyMappingCoversValueKinds | detox/ios/DetoxTestRunner/Invocation/Expectation.swift:40-57 | exactly the kinds mapped to the value class have a key; text and label both read `label` |
| RunnerExpectation.Modifiers | detox/ios/DetoxTestRunner/Invocation/Expectation.swift:62-67 | the set of the given strings for a string array, otherwise empty |
| RunnerExpectation.Params | detox/ios/DetoxTestRunner/Invocation/Expectation.swift:61 | absent params are `nil`, an array is kept, and anything else traps |
| RunnerExpectation.With | detox/ios/DetoxTestRunner/Invocation/Expectation.swift:59-76 | builds exactly for a string kind in the table, with castable params and a first param for value kinds; the class is the table's, the key the key table's, the value the first param |
| RunnerExpectation.DescriptionNegation | detox/ios/DetoxTestRunner/Invocation/Expectation.swift:88-92 | a built expectation's description starts with `NOT ` exactly when the modifiers hold `not`, and the upper-cased kind follows the prefix |
| RunnerExpectation.KnownKindDescription | detox/ios/DetoxTestRunner/Invocation/Expectation.swift:126-130 | the same for any expectation of a known kind, value expectations included |
| RunnerExpectation.ComparisonOf | detox/ios/DetoxTestRunner/Invocation/Expectation.swift:123 | not-equal exactly when the modifiers hold `not` |
| RunnerExpectation.NotInvertsValueOnly | detox/ios/DetoxTestRunner/Invocation/Expectation.swift:95-124 | `not` inverts a value expectation's outcome; visibility and existence ignore the modifiers |
| NotificationParser.TriggerType | detox/ios/DetoxTestRunner/Utilities/DetoxUserNotificationParser.swift:18-19 | present exactly when the trigger is a dictionary holding a string type |
| NotificationParser.Parse | detox/ios/DetoxTestRunner/Utilities/DetoxUserNotificationParser.swift:13-29 | no input gives no output; fatal exactly when the trigger type is missing or unsupported; otherwise the input with the absolute trigger type set and every other key unchanged |
| NotificationParser.ParseIdempotent | detox/ios/DetoxTestRunner/Utilities/DetoxUserNotificationParser.swift:24-28 | parsing a parsed notification changes nothing when the two keys differ |
| NotificationParser.ParseNotIdempotentOnSharedKey | detox/ios/DetoxTestRunner/Utilities/DetoxUserNotificationParser.swift:24-28 | when the keys coincide, a second parse is fatal |
| SimulatorAlloc.DeviceRegistry.constructor | detox/src/devices/allocation/drivers/ios/SimulatorAllocDriver.js:22 | an empty registry |
| SimulatorAlloc.DeviceRegistry.Reset | detox/src/devices/allocation/drivers/ios/SimulatorAllocDriver.js:31 | empties both sets |
| SimulatorAlloc.DeviceRegistry.RegisterDevice | detox/src/devices/allocation/drivers/ios/SimulatorAllocDriver.js:43-45 | records a non-empty udid as busy and in the session, and returns it |
| SimulatorAlloc.DeviceRegistry.ReleaseDevice | detox/src/devices/allocation/drivers/ios/SimulatorAllocDriver.js:77 | no longer busy, still in the session |
| SimulatorAlloc.DeviceRegistry.UnregisterDevice | detox/src/devices/allocation/drivers/ios/SimulatorAllocDriver.js:75 | removed from both sets |
| SimulatorAlloc.DeviceRegistry.UnregisterSessionDevices | detox/src/devices/allocation/drivers/ios/SimulatorAllocDriver.js:88 | the session's devices are no longer busy and the session is empty |
| SimulatorAlloc.Partition | detox/src/devices/allocation/drivers/ios/SimulatorAllocDriver.js:147-149 | a device is in the taken group exactly when its udid is in the snapshot, and in the free group otherwise (order: `PartitionAppend`) |
| SimulatorAlloc.PartitionSizes | detox/src/devices/allocation/drivers/ios/SimulatorAllocDriver.js:147-149 | every result lands in exactly one group |
| SimulatorAlloc.PartitionAppend | detox/src/devices/allocation/drivers/ios/SimulatorAllocDriver.js:147-149 | grouping keeps the query order: grouping a concatenation concatenates the groups |
| SimulatorAlloc.Narrow | detox/src/devices/allocation/drivers/ios/SimulatorAllocDriver.js:151-156 | keeps exactly the matching devices; no target keeps all; an empty identifier keeps none; a matching first device stays first (order: `NarrowAppend`) |
| SimulatorAlloc.NarrowAppend | detox/src/devices/allocation/drivers/ios/SimulatorAllocDriver.js:154-156 | filtering keeps the order: filtering a concatenation concatenates the results |
| SimulatorAlloc.FirstFree | detox/src/devices/allocation/drivers/ios/SimulatorAllocDriver.js:143-158 | the first free device after narrowing is the lowest-index listed device not in the snapshot and of the target OS |
| SimulatorAlloc.GroupDevicesByStatus | detox/src/devices/allocation/drivers/ios/SimulatorAllocDriver.js:143-158 | taken and free sides of the snapshot; no narrowing without a target OS; otherwise exactly the devices with the first taken device's OS |
| SimulatorAlloc.NoFreeMeansTaken | detox/src/devices/allocation/drivers/ios/SimulatorAllocDriver.js:114-116 | on a non-empty query with no free device, a taken prototype exists |
| SimulatorAlloc.EmptyOSIdentifierEmptiesGroups | detox/src/devices/allocation/drivers/ios/SimulatorAllocDriver.js:151-156 | an empty OS identifier on the first taken device empties both groups |
| SimulatorAlloc.ChosenUdid | detox/src/devices/allocation/drivers/ios/SimulatorAllocDriver.js:114-120 | the first free udid, which is the udid of the lowest-index listed device not in the snapshot and of the target OS; the created udid only when nothing is free |
| SimulatorAlloc.Shutdowns | detox/src/devices/allocation/drivers/ios/SimulatorAllocDriver.js:84 | one shutdown attempt per udid, in order |
| SimulatorAlloc.SimulatorAllocDriver.constructor | detox/src/devices/allocation/drivers/ios/SimulatorAllocDriver.js:20-27 | keeps the registry and the shutdown setting, with no launch info |
| SimulatorAlloc.SimulatorAllocDriver.Init | detox/src/devices/allocation/drivers/ios/SimulatorAllocDriver.js:29-33 | resets the registry exactly when no concurrent run is detected |
| SimulatorAlloc.SimulatorAllocDriver.Allocate | detox/src/devices/allocation/drivers/ios/SimulatorAllocDriver.js:39-53 | an empty query fails with nothing changed; otherwise registers the chosen udid; a falsy one fails with no launch info; a good one records its config and returns its cookie |
| SimulatorAlloc.SimulatorAllocDriver.FindOrCreateDevice | detox/src/devices/allocation/drivers/ios/SimulatorAllocDriver.js:109-124 | reuses the first free device, or creates one from `taken[0]` and runs the screenshot workaround; adds the udid to the allocated set |
| SimulatorAlloc.SimulatorAllocDriver.PostAllocate | detox/src/devices/allocation/drivers/ios/SimulatorAllocDriver.js:59-63 | launches with the recorded config, and fails on a udid that was never allocated |
| SimulatorAlloc.SimulatorAllocDriver.DoShutdown | detox/src/devices/allocation/drivers/ios/SimulatorAllocDriver.js:96-102 | attempts one shutdown and swallows its failure |
| SimulatorAlloc.SimulatorAllocDriver.Free | detox/src/devices/allocation/drivers/ios/SimulatorAllocDriver.js:70-79 | with shutdown: shut down, then unregister; without: only release |
| SimulatorAlloc.SimulatorAllocDriver.Cleanup | detox/src/devices/allocation/drivers/ios/SimulatorAllocDriver.js:81-89 | when configured, one shutdown attempt per session device, each exactly once; then always unregisters the session's devices |
| TestRunner.DefinedFields | detox/local-cli/testCommand/TestRunnerCommand.js:29-55 | a variable is present exactly when its option is defined, with that option's value |
| TestRunner.EnvFieldKeys | detox/local-cli/testCommand/TestRunnerCommand.js:29-55 | every variable of the table starts with `DETOX_`; `DETOX_FORCE_ADB_INSTALL` is not in it |
| TestRunner.CliToEnv | detox/local-cli/testCommand/TestRunnerCommand.js:28-55 | exactly the defined options, with their values; `DETOX_FORCE_ADB_INSTALL` only for `android.` device types; every key starts with `DETOX_` |
| TestRunner.LastValue | detox/local-cli/testCommand/TestRunnerCommand.js:57-58 | the value of the last environment entry whose upper-cased key is given |
| TestRunner.EnvHintContents | detox/local-cli/testCommand/TestRunnerCommand.js:57-61 | the hint holds exactly the upper-cased `DETOX_` keys other than the snapshot path, each with the value of its last entry |
| TestRunner.RetryPathsContents | detox/local-cli/testCommand/TestRunnerCommand.js:110-117 | a path is retried exactly when some file with it failed but not permanently; none exactly when every failure is permanent |
| TestRunner.ExecSpec | detox/local-cli/testCommand/TestRunnerCommand.js:91-133 | the loop runs the runner at least once |
| TestRunner.ExecAttempts | detox/local-cli/testCommand/TestRunnerCommand.js:91-133 | at most `runsLeft` runs from the given files and index; each run has the next session index; every run but the last failed retryably and is followed by a run of exactly its retryable files; the last one stops the loop or used up the runs |
| TestRunner.ExecStep | detox/local-cli/testCommand/TestRunnerCommand.js:105-128 | one round either ends the loop with this run or hands over to the retry |
| TestRunner.StopsAtFirstSuccess | detox/local-cli/testCommand/TestRunnerCommand.js:105-132 | `execute` ends without an error exactly when some run passed, and no run follows a passing one |
| TestRunner.RetriesFor | detox/local-cli/testCommand/TestRunnerCommand.js:82 | `inspectBrk` turns retries off; otherwise the configured count |
| TestRunner.InspectBrkRunsOnce | detox/local-cli/testCommand/TestRunnerCommand.js:82-92 | with `inspectBrk`, the runner runs exactly once |
| TestRunner.TestRunnerCommand.constructor | detox/local-cli/testCommand/TestRunnerCommand.js:14-22 | empty files and maps, no retries, no device config |
| TestRunner.TestRunnerCommand.SetDeviceConfig | detox/local-cli/testCommand/TestRunnerCommand.js:70-74 | stores the device config and changes nothing else |
| TestRunner.TestRunnerCommand.ReplicateCLIConfig | detox/local-cli/testCommand/TestRunnerCommand.js:28-64 | fails without a device config; otherwise sets the CLI map and the env hint |
| TestRunner.TestRunnerCommand.SetRunnerConfig | detox/local-cli/testCommand/TestRunnerCommand.js:80-89 | sets files and retries; with `forwardEnv`, forwards the CLI map and merges it over the hint |
| TestRunner.TestRunnerCommand.Execute | detox/local-cli/testCommand/TestRunnerCommand.js:91-133 | ends as the last run of `ExecSpec` says: success exactly when it passed, otherwise that run's error; the files and session index are those of the last run |

## Left out

- `InvokeHandler.handle(_:)`, which parses a raw message into `Message`: the parser, `Message.swift`, is not part of this model. Messages are given already parsed.
- `ElementPattern(from:)` and the matcher's query: the element predicate is passed unread to an oracle matcher.
- The real values of the string-backed enums (directions, speeds, edges) are defined in `Action.swift`, which is not part of this model. The raw strings used here are assumed.
- Date parsing with `ISO8601DateFormatter`/`DateFormatter`: it is the `parseDate` oracle, and its `nil` is a trap.
- NSNumber bridging: integers, doubles and booleans (as 1 and 0) are all read as plain numbers, and floating point is modelled as `real`.
- `act(action:on:)`, the overload that forces `DetoxTester.shared.testCase!`: not modelled, since it only forwards to the modelled `act(action:on:testCase:)`.
- XCUITest gestures are recorded as `Gesture` effects, and `assertResponse(equalsTo:)` as an `AssertedCompleted` effect. Its test failure on a non-`completed` answer is not modelled.
- `uiLog`, `log.warn`, `log.error` and the other logging calls: left out, since they only log.
- `Element.with(dictionaryRepresentation:)`, the element's description and the element query in `evaluate(with: XCUIApplication)`: they are kept as values and parameters. The element state is an `ElementState` value.
- Unicode case mapping: `uppercased()`/`toUpperCase()` map only ASCII letters here.
- `DeviceRegistry.js`, the device registry itself, is not part of this model. Its sequential semantics (a busy set and a session set) are assumed from how the driver uses it. The cross-process file lock is left out.
- `Promise.all` in `cleanup`: the shutdowns are run one after another, in an unspecified order.
- `_allocatedSimulators` is never initialised in this file. The model gives it an empty set in the constructor. Whether the base class provides it is outside the model.
- `SimulatorAllocDriver.Cleanup`: it returns a ghost `order` of shutdowns rather than a fixed order, because `getIds()` ordering is not visible here.
- `SetRunnerConfig`: `RunnerConfig.args` stands for the positional file list `config.args._` only; the rest of the argument object that `this._argv` stores is not modelled.
- `_doExecute`, `_buildSpawnArguments`, the spawned process, `printEnvironmentVariables` and the retry log are an oracle `run(index, files)`. It gives the outcome and the per-file results the session collected.
- `TestRunner.TestRunnerCommand.Execute`: treats a thrown error as always truthy. A falsy thrown value (`throw 0`), which would end the loop as if it had passed, is not modelled.
- `InvokeHandler.Handler.Poll`: the source loop has no bound. The model adds a ghost `fuel` and requires the loop to stop within it, so a loop that never stops is not modelled.
- `InvokeHandler.Handler.Handle`, `InvokeHandler.Handler.HandleAction`: they inherit `Poll`'s requirement that a polling loop stops within the ghost `fuel`.
- `NotificationParser.Parse`: the key names and the supported trigger types are defined outside the parser's file, so they are parameters.
- `SimulatorAlloc.GroupDevicesByStatus`: it follows lodash in the empty-identifier case, where `_.filter(x, "")` keeps no device. An empty OS identifier is the one case where the source creates a device from an `undefined` prototype (`NoFreeMeansTaken` excludes it).

# Message dispatch to handlers (NServiceBus `InvokeHandlersBehavior`)

This project models the pipeline stage of NServiceBus that hands the messages of one unit of work to their handlers, and proves properties of that model.

The stage works like this:

- It refuses a behaviour context whose message list was never set.
- It walks the messages in order. Each message in turn becomes the "message currently being handled".
- For each message it walks the loaded handler bindings for the message's type, in the order the handler directory gives them.
- It skips bindings whose invocation is disabled.
- For each enabled binding it takes a turn, inside a try/finally:
  - while a saga handler runs, the ambient "current saga" cell holds that handler;
  - if the bus maps the handler type to a dispatcher factory, the factory's list of dispatch actions is built and then run, and a failing action is wrapped;
  - otherwise the handler's invocation delegate is called, and its failure is not wrapped;
  - after a turn that did not throw, the context's `ChainAborted` flag is read, and if it is set the rest of this message's chain is skipped;
  - the saga cell is cleared on every way out of the turn.
- Only when every message went through does it clear the current message and call the next stage.

The model has five files:

- `model.dfy`, module `HandlerModel`. The data: messages, handler instances, bindings, and the outcome of one call into handler code (`Returns`, `ReturnsAborting`, `Throws(cause)`). It also holds the configuration, which stands in for reflection and the container: the handler directory, the bus's dispatcher mappings and what the container builds for a type. The errors and the observable events are here too, with `GetDispatcherFactoryFor`.
- `dispatch.dfy`, module `Dispatch`. The stage as pure functions over the `Ambient` record. That record holds the current-message cell, the current-saga cell, the `ChainAborted` flag and the trace of events.
- `behavior.dfy`, module `InvokeHandlers`. Class `InvokeHandlersBehavior`. It holds the same cells as mutable fields and runs the code's loops and try/finally in place. Each method is proved to end in the state the matching `Dispatch` function gives.
- `properties.dfy`, module `DispatchProperties`. The lemmas. It also has a reference plan (`Planned`, `PlannedCalls`) saying which handlers get a turn. The `…FollowsPlan` lemmas cover the case where no planned turn fails. The `…FailsAt` lemmas cover the case where one does.
- `scenarios.dfy`, module `DispatchScenarios`. Concrete units of work.

Handler code and dispatch actions are given by their outcome. The trace records each call into handler code, together with the saga and current message that code sees, and each call to the next stage (`NextCalled`).

Two consequences of the code are worth stating up front:

- The stage never resets `ChainAborted`. Once a handler of one message sets it, every later message of the unit gets only its first enabled handler (`AbortCarriesOverToNextMessage`).
- The wrapped failure of a dispatch action carries only the cause the action threw. The failing handler's type name goes only into the warning log.

The current message and the current saga are static cells in the code. Their per-thread isolation is not modelled: they are fields of one object.

## Model

| member | source | states |
|---|---|---|
| `HandlerModel.GetDispatcherFactoryFor` | src/NServiceBus.Core/Pipeline/Behaviors/InvokeHandlersBehavior.cs:100-116 | With no mapping for the handler type, the result is "no factory" (the direct path). A mapped type that builds to something other than a dispatcher factory gives the invalid-operation error naming the factory type and the handler type. Otherwise it gives the built factory. Both directions of each case are stated. |
| `InvokeHandlers.InvokeHandlersBehavior.Invoke` | src/NServiceBus.Core/Pipeline/Behaviors/InvokeHandlersBehavior.cs:15-37 | New state and outcome equal `Dispatch.InvokeHandlers` of the old state. A missing message list raises the argument error and changes nothing. On success the current message is cleared and `next` is the last event, called exactly once more. On failure `next` is not called, the error is not the argument error, and the current message is still a message of the unit. With no saga current before, the saga discipline holds for the whole trace and the cell ends empty. |
| `InvokeHandlers.InvokeHandlersBehavior.DispatchMessageToHandlersBasedOnType` | src/NServiceBus.Core/Pipeline/Behaviors/InvokeHandlersBehavior.cs:39-98 | The handler loop ends in the state and error `Dispatch.DispatchToHandlers` gives for the directory's bindings of the message type. |
| `InvokeHandlers.InvokeHandlersBehavior.InvokeEnabledHandler` | src/NServiceBus.Core/Pipeline/Behaviors/InvokeHandlersBehavior.cs:48-96 | One enabled handler's try/finally ends as `Dispatch.HandlerTurn` says, and the saga cell is empty afterwards. |
| `InvokeHandlers.InvokeHandlersBehavior.ForEachDispatcher` | src/NServiceBus.Core/Pipeline/Behaviors/InvokeHandlersBehavior.cs:64-79 | Running the materialised action list ends as `Dispatch.RunDispatchers` says. |
| `InvokeHandlers.InvokeHandlersBehavior.CallHandlerCode` | src/NServiceBus.Core/Pipeline/Behaviors/InvokeHandlersBehavior.cs:71-83 | A call into handler code is recorded with the ambient cells it sees, and an aborting outcome sets the flag. |
| `DispatchProperties.FirstThrow` | src/NServiceBus.Core/Pipeline/Behaviors/InvokeHandlersBehavior.cs:66-79 | The index it returns from position i lies between i and the list length. Unless it is the list length, the action at that index throws. |
| `DispatchProperties.FirstThrowIsFirst` | src/NServiceBus.Core/Pipeline/Behaviors/InvokeHandlersBehavior.cs:66-79 | No action from position i up to the index `FirstThrow` returns throws. So that index is the first throwing action, or the list length when none throws. |
| `DispatchProperties.RunDispatchersStopsAtFirstThrow` | src/NServiceBus.Core/Pipeline/Behaviors/InvokeHandlersBehavior.cs:64-79 | The actions run in list order up to and including the first one that throws, and none after it. That action's cause is reported. The flag is set exactly when one of the actions that ran set it. |
| `DispatchProperties.RunDispatchersScope` | src/NServiceBus.Core/Pipeline/Behaviors/InvokeHandlersBehavior.cs:64-79 | The actions leave both ambient cells unchanged and never clear the flag. They add only calls of this handler for this message, each seeing the cells as they were. |
| `DispatchProperties.HandlerTurnResult` | src/NServiceBus.Core/Pipeline/Behaviors/InvokeHandlersBehavior.cs:57-91 | Per dispatch path: an invalid factory fails with the error naming both types before any code runs. A factory's first throwing action fails the turn with `HandlingFailed` of that cause, and only the actions up to it ran. A throwing direct invocation fails with the unwrapped cause. A turn that throws nothing ends with the abort check. |
| `DispatchProperties.TurnBodyScope` | src/NServiceBus.Core/Pipeline/Behaviors/InvokeHandlersBehavior.cs:57-91 | The try block leaves the ambient cells as it found them and never clears the flag. It adds only calls of this handler for this message, which see the cells as they were on entry. |
| `DispatchProperties.HandlerTurnScope` | src/NServiceBus.Core/Pipeline/Behaviors/InvokeHandlersBehavior.cs:48-96 | During an enabled turn the handler's code sees the handler as the current saga when it is a saga. After the turn the saga cell is empty on every way out, including the factory configuration error. The current message is untouched and the flag is never cleared. |
| `DispatchProperties.DisabledBindingsAreInert` | src/NServiceBus.Core/Pipeline/Behaviors/InvokeHandlersBehavior.cs:45-46 | Disabled bindings have no effect at all: the chain ends exactly as it would with them removed. |
| `DispatchProperties.TurnError` | src/NServiceBus.Core/Pipeline/Behaviors/InvokeHandlersBehavior.cs:57-91 | A turn has an error exactly when it does not succeed, and that error is never the argument error. The three errors are the invalid-factory error, the wrapped cause of the first throwing action and the unwrapped cause of a throwing invocation. |
| `DispatchProperties.ChainFollowsPlan` | src/NServiceBus.Core/Pipeline/Behaviors/InvokeHandlersBehavior.cs:43-97 | When no handler that gets a turn throws, the chain ends without error. It makes exactly the planned handlers' calls, in directory order, and the flag afterwards says whether one of them set it. Handlers skipped after the flag is set may do anything. |
| `DispatchProperties.ChainFailsAt` | src/NServiceBus.Core/Pipeline/Behaviors/InvokeHandlersBehavior.cs:43-97 | When planned turn j is the first to fail, the chain ends with exactly that turn's error. The calls made are those of the planned turns up to and including turn j, so no later handler gets a turn. |
| `DispatchProperties.ChainScope` | src/NServiceBus.Core/Pipeline/Behaviors/InvokeHandlersBehavior.cs:43-97 | Every call of a message's chain is for that message and sees it as current. The flag is never cleared. With no saga current before, each call sees its own handler as the saga exactly when it is one, and no saga is current afterwards. |
| `DispatchProperties.UnabortedChainRunsAllEnabled` | src/NServiceBus.Core/Pipeline/Behaviors/InvokeHandlersBehavior.cs:43-46 | If the flag is not set and no enabled handler sets it, every enabled handler gets a turn, in directory order. |
| `DispatchProperties.AbortingHandlerEndsChain` | src/NServiceBus.Core/Pipeline/Behaviors/InvokeHandlersBehavior.cs:86-91 | The first enabled handler that sets the flag is the last of its message to get a turn. |
| `DispatchProperties.AbortedChainRunsFirstEnabledOnly` | src/NServiceBus.Core/Pipeline/Behaviors/InvokeHandlersBehavior.cs:86-91 | If the flag is already set when a message's chain starts, only its first enabled handler gets a turn. |
| `DispatchProperties.MessagesFollowPlan` | src/NServiceBus.Core/Pipeline/Behaviors/InvokeHandlersBehavior.cs:27-32 | When no handler that gets a turn throws, the messages are handled in order, each with its planned handlers. The flag carries over from one message to the next and ends as the plan says. |
| `DispatchProperties.MessagesFailAt` | src/NServiceBus.Core/Pipeline/Behaviors/InvokeHandlersBehavior.cs:27-32 | When the earlier messages go through and planned turn j of message m is the first to fail, the loop ends with that turn's error and m still current. The calls made are the earlier messages' planned calls, then m's up to and including turn j. No later message is handled. |
| `DispatchProperties.MessagesScope` | src/NServiceBus.Core/Pipeline/Behaviors/InvokeHandlersBehavior.cs:27-32 | Every call sees its own message as current, and that message belongs to the unit. After the loop the current message is still set to a message of the unit. An empty unit changes nothing. |
| `DispatchProperties.InvokeHandlersScope` | src/NServiceBus.Core/Pipeline/Behaviors/InvokeHandlersBehavior.cs:15-37 | A missing message list raises the argument error and changes nothing. Otherwise events are only added. On success `next` is the last event, called exactly once more, and the current message is cleared. On failure `next` is not called, the error is not the argument error, and the current message is still a message of the unit. |
| `DispatchProperties.InvokeHandlersEvents` | src/NServiceBus.Core/Pipeline/Behaviors/InvokeHandlersBehavior.cs:15-37 | Every event the stage adds except possibly the last is a call into handler code. Each such call is for a message of the unit and sees that message as current. With no saga current before, each call sees its own handler as the saga exactly when it is one, and no saga is current afterwards. |
| `DispatchProperties.InvokeHandlersFollowsPlan` | src/NServiceBus.Core/Pipeline/Behaviors/InvokeHandlersBehavior.cs:15-37 | When no handler that gets a turn throws, the stage completes. It makes exactly the planned calls: message order first, then directory order within a message. |
| `DispatchProperties.InvokeHandlersFailsAt` | src/NServiceBus.Core/Pipeline/Behaviors/InvokeHandlersBehavior.cs:15-37 | When planned turn j of message m is the first failing turn of the unit, the stage raises exactly that turn's error: `InvalidDispatcherFactory`, `HandlingFailed(cause)` or `Unwrapped(cause)`. It leaves m current, does not call `next`, and makes exactly the planned calls up to and including turn j. |
| `DispatchScenarios.AbortScenario` | src/NServiceBus.Core/Pipeline/Behaviors/InvokeHandlersBehavior.cs:27-36 | Messages A then B. A has H1, then H2, which sets the flag. B has H3. The calls are H1, H2, H3, and `next` is called once. |
| `DispatchScenarios.AbortCarriesOverToNextMessage` | src/NServiceBus.Core/Pipeline/Behaviors/InvokeHandlersBehavior.cs:86-91 | Same unit, but B has H3, then H4, which would throw. The flag set for A is still set for B, so H4 never runs and the unit completes. |
| `DispatchScenarios.SkippedHandlerCannotFail` | src/NServiceBus.Core/Pipeline/Behaviors/InvokeHandlersBehavior.cs:86-91 | A has H1, which sets the flag, then H2, which would throw. Only H1 runs, and the stage completes and calls `next` once. |
| `DispatchScenarios.DirectFailureEndsUnit` | src/NServiceBus.Core/Pipeline/Behaviors/InvokeHandlersBehavior.cs:81-84 | A has H1, then H2, which throws 9. B has H3. The stage raises `Unwrapped(9)` after calling H1 and H2; H3 never runs, A stays current and `next` is not called. |
| `DispatchScenarios.FactoryFailureScenario` | src/NServiceBus.Core/Pipeline/Behaviors/InvokeHandlersBehavior.cs:62-79 | A saga handler's factory yields two actions and the second throws. Both run, the caller gets the wrapped cause, and `next` is not called. The saga cell held the handler during both actions and is empty afterwards. |
| `DispatchScenarios.InvalidFactoryScenario` | src/NServiceBus.Core/Pipeline/Behaviors/InvokeHandlersBehavior.cs:100-116 | A mapped factory type that is not a dispatcher factory fails the stage with the error naming both types. No handler code runs, `next` is not called, and the saga cell is empty. |

## Left out

- Logging (`log.DebugFormat`, `log.Warn`, the logger field at line 118) only has side effects and is not modelled. So the handler type name that the warning attaches to a failed action appears nowhere in the model.
- Reflection and the dependency-injection container are not modelled: `GetType()`, `is ISaga`, `Build<UnicastBus>()`, `Build(factoryType)` and the `as` cast. They are replaced by data: the instance's `handlerType` and `isSaga`, the `dispatcherMappings` map, and a total `build` function. A container that fails to build a type is not modelled.
- `context.Get<LoadedMessageHandlers>()` is taken to succeed. The handler directory is the total function `handlersFor`. How the directory matches base types and interfaces is the directory's concern.
- Handler code is reduced to one outcome per call. It cannot touch the ambient cells itself or clear the `ChainAborted` flag, and a call that throws does not also set the flag.
- The next stage is recorded as one event. Whatever it does, including throwing, is outside the model.
- Exceptions are result tags. The text of the argument error, which prints the context, and the text of the invalid-operation error are reduced to the type identifiers they name.
- Per-thread isolation of the static current-message and current-saga cells is not modelled, and neither is concurrency: the cells are fields of one object.
- `GetDispatcherFactoryFor` and the factory path of `Dispatch.TurnBody` take the factory's `GetDispatcher` call and the enumeration of its result (`.ToList()`, line 64) to succeed. An exception there is outside the per-action try/catch, so the code passes it on unwrapped after the finally clears the saga cell. The total `getDispatcher` cannot produce that path.
- A mapping entry whose factory type is null counts as no mapping (line 107). The model's map has no null entries, so the same case is an unmapped handler type.

# Nayra BPMN engine: transition rules and the collaboration bus

This project models four pieces of the Nayra BPMN engine and proves properties
about them.

- **Parallel (AND) gateway rule.** The gateway is enabled when the origin of
  every incoming sequence flow holds a token. Its own condition accepts
  everything. Its configuration consumes every available token, one per
  incoming flow.
- **Cancel-activity rule.** A token passes only when it is Closed. The token is
  preserved (forwarded) rather than destroyed, and it is tagged with the Cancel
  event type.
- **Collaboration message bus.** Catch events subscribe under a key.
  `unsubscribe` drops every registration under a key. `send` delivers a message
  to each matching subscriber, in every execution instance that subscriber
  correlates with. A non-signal message matches by key equality. A signal is
  broadcast to subscribers whose first event definition is a signal.
- **Inclusive (OR) gateway and the engine run loop**, as the engine's feature
  tests exercise them.
  - The OR-split fires every non-default flow whose guard holds. It falls back
    on the default flow only when no guard holds.
  - The OR-join waits for every live branch, then consumes all arrived tokens
    in one activation.
  - The engine repeatedly executes the first enabled transition and logs its
    lifecycle events. `runToNextState(maxSteps)` reports `false` when the step
    budget runs out before a quiescent state is reached.
  - The two test processes and the three test methods are proved as lemmas.
    Each lemma shows that the model produces exactly the event log the test
    asserts.

Modules:

| module | file |
|---|---|
| `Bpmn` (shared vocabulary: tokens, token status, transition configuration) | `bpmn.dfy` |
| `ParallelGatewayTransition` | `parallel_gateway_transition.dfy` |
| `CancelActivityTransition` | `cancel_activity_transition.dfy` |
| `Collaboration` | `collaboration.dfy` |
| `ProcessGraph` (nodes, guarded flows, data store, token places) | `process_graph.dfy` |
| `InclusiveGatewayTransition` (OR-split and OR-join) | `inclusive_gateway_transition.dfy` |
| `Engine` (scheduling, event log, step budget) | `engine.dfy` |
| `InclusiveGatewayScenarios` (the two test processes, step by step) | `inclusive_gateway_scenarios.dfy` |
| `InclusiveGatewayTests` (the three test methods end to end) | `inclusive_gateway_tests.dfy` |

### Notes on the source

- **`unsubscribe(node, key)` ignores its node.** `unsubscribe` takes a node
  argument (tests/ProcessMaker/Models/Collaboration.php:205), but its
  `array_filter` tests the key alone (207-210). Every registration under the
  key is removed, whichever node made it. `Collaboration.Unsubscribe` does the
  same and never consults its node argument.
- **A gateway interleaves passes with arrivals.** In the asserted logs, each
  GATEWAY_TOKEN_PASSED is immediately followed by its target's arrival event
  (tests/Feature/Engine/InclusiveGatewayTest.php:142-145 and 177-178). The
  passes are not grouped together. `Engine.ActivationEventOrder` states this
  order.
- **The cancel rule's initialiser name.** The initialiser of
  `CancelActivityTransition` is named `initActivityTransition`, not
  `initCancelActivityTransition` (src/ProcessMaker/Nayra/Bpmn/CancelActivityTransition.php:24).
  - The parallel gateway's initialiser follows the class name
    (`initParallelGatewayTransition`, src/ProcessMaker/Nayra/Bpmn/ParallelGatewayTransition.php:23).
    If `TransitionTrait` derives initialiser names the same way, this one
    would never run, and `preserveToken` would keep its default.
  - `TransitionTrait` is not part of this model, so the mismatch cannot be
    confirmed.
  - `CancelActivityTransition.InitActivityTransition` states the intended
    configuration: `preserveToken` is true.

## Model

| member | source | states |
|---|---|---|
| ParallelGatewayTransition.InitParallelGatewayTransition | src/ProcessMaker/Nayra/Bpmn/ParallelGatewayTransition.php:23-27 | consumption becomes "all available" (-1) per transition and 1 per incoming flow; preserveToken is untouched |
| ParallelGatewayTransition.AssertCondition | src/ProcessMaker/Nayra/Bpmn/ParallelGatewayTransition.php:35-38 | the gateway accepts every token of every instance |
| ParallelGatewayTransition.IncomingWithToken | src/ProcessMaker/Nayra/Bpmn/ParallelGatewayTransition.php:48-50 | the filtered collection is no larger than the incoming flows, and it holds an incoming flow iff that flow's origin has a token |
| ParallelGatewayTransition.HasAllRequiredTokensIsAndJoin | src/ProcessMaker/Nayra/Bpmn/ParallelGatewayTransition.php:46-52 | comparing the count of flows with a token against the count of incoming flows holds iff every incoming origin holds a token |
| ParallelGatewayTransition.NoIncomingIsEnabled | src/ProcessMaker/Nayra/Bpmn/ParallelGatewayTransition.php:51 | with no incoming flow the gateway is enabled (0 === 0) |
| ParallelGatewayTransition.EmptyOriginDisables | src/ProcessMaker/Nayra/Bpmn/ParallelGatewayTransition.php:48-51 | one incoming origin without a token disables the gateway |
| ParallelGatewayTransition.MoreTokensKeepEnabled | src/ProcessMaker/Nayra/Bpmn/ParallelGatewayTransition.php:48-51 | adding tokens anywhere keeps an enabled gateway enabled |
| ParallelGatewayTransition.OnlyPresenceMatters | src/ProcessMaker/Nayra/Bpmn/ParallelGatewayTransition.php:48-51 | two markings that agree on which origins are non-empty give the same filter and the same verdict, so counts above one do not matter |
| CancelActivityTransition.InitActivityTransition | src/ProcessMaker/Nayra/Bpmn/CancelActivityTransition.php:24-27 | preserveToken becomes true (the token is forwarded, not destroyed); both consumption settings are kept |
| CancelActivityTransition.AssertCondition | src/ProcessMaker/Nayra/Bpmn/CancelActivityTransition.php:37-40 | a token passes iff its status is Closed; Ready, Active, Completed and Consumed tokens are refused |
| CancelActivityTransition.OnTokenTransit | src/ProcessMaker/Nayra/Bpmn/CancelActivityTransition.php:42-45 | afterwards the event-type property reads as the Cancel marker; status, owner, instance and every other property are unchanged |
| CancelActivityTransition.OnTokenTransitIdempotent | src/ProcessMaker/Nayra/Bpmn/CancelActivityTransition.php:44 | tagging twice gives the same token as tagging once |
| CancelActivityTransition.TaggingKeepsCondition | src/ProcessMaker/Nayra/Bpmn/CancelActivityTransition.php:37-45 | tagging does not change whether the rule accepts the token |
| Collaboration.SetClosed | tests/ProcessMaker/Models/Collaboration.php:115-124 | after setClosed(b), isClosed() returns b; the subscribers are unchanged |
| Collaboration.Subscribe | tests/ProcessMaker/Models/Collaboration.php:188-194 | exactly one (node, key) registration is appended at the end; earlier registrations and the closed flag are kept |
| Collaboration.SubscribeTwiceListsTwice | tests/ProcessMaker/Models/Collaboration.php:188-194 | subscribing is not idempotent: the same registration made twice is listed twice more |
| Collaboration.WithoutKeyExactly | tests/ProcessMaker/Models/Collaboration.php:207-210 | the filter keeps a registration iff it is in the list and its key differs from the given one |
| Collaboration.Unsubscribe | tests/ProcessMaker/Models/Collaboration.php:205-211 | afterwards no registration under the key remains, for any node; every registration under another key remains; the closed flag is kept |
| Collaboration.WithoutKeyDistributes | tests/ProcessMaker/Models/Collaboration.php:207-210 | the filter distributes over concatenation, so kept registrations stay in their original relative order |
| Collaboration.WithoutKeyKeepsOthers | tests/ProcessMaker/Models/Collaboration.php:207-210 | a registration under another key keeps its multiplicity |
| Collaboration.UnsubscribeUndoesSubscribe | tests/ProcessMaker/Models/Collaboration.php:188-211 | unsubscribing a key after subscribing under it gives the same list as unsubscribing without the subscription |
| Collaboration.Matches | tests/ProcessMaker/Models/Collaboration.php:139-145 | a non-signal message matches iff the key equals the message id; a signal matches iff the subscriber's first event definition is a signal, whatever its key |
| Collaboration.DeliveriesToContents | tests/ProcessMaker/Models/Collaboration.php:141-147 | a matching subscriber is delivered once per target instance, in instance order; a non-matching one gets nothing |
| Collaboration.DeliverToInstances | tests/ProcessMaker/Models/Collaboration.php:141-148 | the inner loop over target instances produces the per-subscriber deliveries |
| Collaboration.Send | tests/ProcessMaker/Models/Collaboration.php:137-150 | the nested loop delivers subscriber by subscriber in list order, and within one subscriber instance by instance; the subscriber list is only read |
| Collaboration.DeliveriesOverConcat | tests/ProcessMaker/Models/Collaboration.php:140-149 | deliveries follow the subscriber list: deliveries over a + b are those over a followed by those over b |
| Collaboration.DeliveredIffMatchingRegistration | tests/ProcessMaker/Models/Collaboration.php:139-149 | a (node, instance) pair is delivered iff some registration of that node matches the message and correlates with that instance |
| Collaboration.DirectDeliveredIffKeyMatches | tests/ProcessMaker/Models/Collaboration.php:143-146 | a non-signal message reaches a (node, instance) pair iff the node is registered under the message id and correlates with the instance |
| Collaboration.SignalDeliveredIffSignalListener | tests/ProcessMaker/Models/Collaboration.php:139-146 | a signal reaches a (node, instance) pair iff the node is registered under any key, its first definition is a signal, and it correlates with the instance |
| Collaboration.SubscribeThenSend | tests/ProcessMaker/Models/Collaboration.php:137-150 | a new registration's deliveries come after all deliveries of the earlier registrations |
| Collaboration.NoListenerNoDelivery | tests/ProcessMaker/Models/Collaboration.php:143-146 | with no registration under an id, a non-signal message with that id is delivered nowhere |
| Collaboration.SendAfterUnsubscribeIsSilent | tests/ProcessMaker/Models/Collaboration.php:205-210 | after unsubscribing a key, a non-signal message with that id is delivered nowhere |
| Collaboration.FreshBus | tests/ProcessMaker/Models/Collaboration.php:21-26 | a new bus has no subscribers and an unset closed flag, so it delivers nothing; after one subscription it delivers exactly that registration's deliveries |
| ProcessGraph.FlowsOfNode | tests/Feature/Engine/InclusiveGatewayTest.php:51-61 | a flow created by createFlowTo is listed as outgoing exactly at its origin and as incoming exactly at its target |
| ProcessGraph.FlowsInOrder | tests/Feature/Engine/InclusiveGatewayTest.php:51-61 | a node's incoming and outgoing flows are listed in creation order, without repeats |
| ProcessGraph.GuardedFlowsExactly | tests/Feature/Engine/InclusiveGatewayTest.php:59-61 | a node that is not a gateway passes tokens along exactly its flows whose guard holds, in order |
| ProcessGraph.RemoveOneTakesOne | tests/Feature/Engine/InclusiveGatewayTest.php:149-150 | taking a token out of a place removes exactly one token when there is one, and changes nothing otherwise |
| InclusiveGatewayTransition.ConditionedFlowsExactly | tests/Feature/Engine/InclusiveGatewayTest.php:52-58 | the conditioned flows are exactly the non-default flows whose guard holds, in order |
| InclusiveGatewayTransition.DefaultFlowsExactly | tests/Feature/Engine/InclusiveGatewayTest.php:96-102 | the default flows are exactly the flows created with the default flag, in order |
| InclusiveGatewayTransition.SplitSelects | tests/Feature/Engine/InclusiveGatewayTest.php:96-102 | the OR-split takes a non-default flow iff its guard holds, and the default flow iff no such guard holds; it takes nothing but outgoing flows, in creation order; it fails iff no flow is a default and no guard holds |
| InclusiveGatewayTransition.SplitTakesOneDefault | tests/Feature/Engine/InclusiveGatewayTest.php:96-102 | on a process with at most one default flow per node, the split never takes two default flows, and when no guard holds it takes exactly one flow |
| InclusiveGatewayTransition.AtMostOneDefault | tests/Feature/Engine/InclusiveGatewayTest.php:96-102 | a valid process lists at most one default flow among a node's outgoing flows |
| InclusiveGatewayTransition.JoinEnabledIff | tests/Feature/Engine/InclusiveGatewayTest.php:158-179 | the OR-join fires iff a token has arrived and every incoming flow either has a token waiting or comes from a node holding no token |
| InclusiveGatewayTransition.ConsumeArrivalsEffect | tests/Feature/Engine/InclusiveGatewayTest.php:170-179 | one activation consumes every token that arrived at the gateway, exactly those, and leaves every other token in place |
| Engine.GatewayPassEvents | tests/Feature/Engine/InclusiveGatewayTest.php:142-145 | a gateway logs TOKEN_PASSED and the target's arrival event in pairs, one pair per flow, in flow order |
| Engine.PlainPassEvents | tests/Feature/Engine/InclusiveGatewayTest.php:138-139 | a start event or activity logs only the target's arrival event, one per flow, in order |
| Engine.ActivationEventOrder | tests/Feature/Engine/InclusiveGatewayTest.php:170-179 | an activation logs ACTIVATED, then one TOKEN_CONSUMED per consumed token, then per selected flow TOKEN_PASSED immediately followed by the arrival event |
| Engine.FireInclusiveGateway | tests/Feature/Engine/InclusiveGatewayTest.php:139-146 | a gateway activation fails, at that gateway, iff the OR-split selects nothing; otherwise it takes a step |
| Engine.GatewayActivation | tests/Feature/Engine/InclusiveGatewayTest.php:170-179 | a successful activation logs the activation events, removes all tokens that arrived at the gateway, keeps every other token, and adds one token per selected flow |
| Engine.FirstEnabledIsLeast | tests/Feature/Engine/InclusiveGatewayTest.php:134 | the scheduler picks the lowest-numbered node with an enabled transition, and finds none iff no node is enabled |
| Engine.StepQuiescentIff | tests/Feature/Engine/InclusiveGatewayTest.php:134 | a scheduling pass does nothing iff no node has an enabled transition |
| Engine.StepTakesFirstEnabled | tests/Feature/Engine/InclusiveGatewayTest.php:134 | a scheduling pass executes the transition of the lowest-numbered enabled node |
| Engine.RunWithStops | tests/Feature/Engine/InclusiveGatewayTest.php:152-155 | a run reports success iff it stops at a state with nothing enabled; a run stopped by the budget leaves work to do; a halted run stops at the failing transition |
| Engine.RunToNextStateStops | tests/Feature/Engine/InclusiveGatewayTest.php:152-155 | the same, for the engine's own scheduler |
| Engine.RunWithLargerBudget | tests/Feature/Engine/InclusiveGatewayTest.php:155 | once a run finishes within its budget, a larger budget gives the same run, so any large enough budget stands for the unbounded run |
| Engine.LargerBudgetSameRun | tests/Feature/Engine/InclusiveGatewayTest.php:155 | the same, for the engine's own scheduler |
| Engine.RunWithResumes | tests/Feature/Engine/InclusiveGatewayTest.php:152-155 | a run stopped by its budget resumes where it stopped: a steps and then b more is the same as a + b at once |
| Engine.ExhaustedRunResumes | tests/Feature/Engine/InclusiveGatewayTest.php:152-155 | the same, for the engine's own scheduler |
| Engine.RunFromQuiescent | tests/Feature/Engine/InclusiveGatewayTest.php:134 | a run from a state with nothing enabled takes no step and reports success |
| Engine.RunTakesStep | tests/Feature/Engine/InclusiveGatewayTest.php:134 | a run with budget left ends where the run from the next state ends, with the step's events logged first |
| Engine.BudgetOneLeavesWork | tests/Feature/Engine/InclusiveGatewayTest.php:152-153 | with a budget of one, a run whose first step leaves another transition enabled reports false |
| Engine.Start | tests/Feature/Engine/InclusiveGatewayTest.php:131-132 | starting logs EVENT_TRIGGERED, adds one token at the start event and enables the start event's transition |
| Engine.Complete | tests/Feature/Engine/InclusiveGatewayTest.php:148-150 | completing an activity succeeds iff it holds an active token; it turns exactly one active token into a completed one, logs ACTIVITY_COMPLETED and enables closing |
| InclusiveGatewayScenarios.AllPathsFlows | tests/Feature/Engine/InclusiveGatewayTest.php:51-61 | the flows of the all-paths process, as incoming and outgoing lists per node |
| InclusiveGatewayScenarios.BothSelected | tests/Feature/Engine/InclusiveGatewayTest.php:52-58 | with A and B both '1' the split selects both flows, A's first |
| InclusiveGatewayScenarios.OnlyBSelected | tests/Feature/Engine/InclusiveGatewayTest.php:191-194 | with A not '1' and B '1' the split selects only the flow to B |
| InclusiveGatewayScenarios.AllPathsSplitBoth | tests/Feature/Engine/InclusiveGatewayTest.php:140-145 | the split consumes one token and passes two, each TOKEN_PASSED immediately followed by ACTIVITY_ACTIVATED |
| InclusiveGatewayScenarios.AllPathsSplitOnlyB | tests/Feature/Engine/InclusiveGatewayTest.php:210-213 | with only B selected, one flow passes and one activity activates |
| InclusiveGatewayScenarios.AllPathsJoinWaitsForB | tests/Feature/Engine/InclusiveGatewayTest.php:158-162 | with A's token at the join and B still active, the join is not enabled and nothing else is |
| InclusiveGatewayScenarios.AllPathsJoinFires | tests/Feature/Engine/InclusiveGatewayTest.php:173-178 | with both branch tokens arrived, one join activation consumes both and passes one token to the end event |
| InclusiveGatewayScenarios.OnlyBJoinSatisfied | tests/Feature/Engine/InclusiveGatewayTest.php:222-230 | when only B was activated, its single token satisfies the join |
| InclusiveGatewayScenarios.OnlyBJoinFires | tests/Feature/Engine/InclusiveGatewayTest.php:225-229 | the join activates on B's single token, consumes one, and reaches the end event |
| InclusiveGatewayScenarios.DefaultTaken | tests/Feature/Engine/InclusiveGatewayTest.php:96-102 | with A not '1' no condition holds, so the split takes only the default flow |
| InclusiveGatewayScenarios.ConditionTaken | tests/Feature/Engine/InclusiveGatewayTest.php:96-102 | with A '1' the split takes the conditioned flow only, not the default one |
| InclusiveGatewayScenarios.DefaultSplitToB | tests/Feature/Engine/InclusiveGatewayTest.php:252-259 | with A = '2' the split activates activity B alone, along the default flow |
| InclusiveGatewayScenarios.DefaultSplitToA | tests/Feature/Engine/InclusiveGatewayTest.php:272-279 | with A = '1' the split activates activity A alone |
| InclusiveGatewayTests.AllPathsFirstRun | tests/Feature/Engine/InclusiveGatewayTest.php:134-146 | after the start, a run activates both activities with the asserted log and reports success |
| InclusiveGatewayTests.AllPathsSingleStep | tests/Feature/Engine/InclusiveGatewayTest.php:153 | after A completes, runToNextState(1) closes A and returns false |
| InclusiveGatewayTests.AllPathsResume | tests/Feature/Engine/InclusiveGatewayTest.php:155-162 | the resumed run moves A's token to the join, which keeps waiting |
| InclusiveGatewayTests.AllPathsFinalRun | tests/Feature/Engine/InclusiveGatewayTest.php:164-179 | after B completes, the run closes B, fires the join once and ends the process with the asserted log |
| InclusiveGatewayTests.TestInclusiveGatewayAllPaths | tests/Feature/Engine/InclusiveGatewayTest.php:115-180 | the whole test: the three asserted logs, the false result of the one-step run, and the end state |
| InclusiveGatewayTests.OnlyBFirstRun | tests/Feature/Engine/InclusiveGatewayTest.php:203-214 | with A = '0', the first run activates only B with the asserted log |
| InclusiveGatewayTests.OnlyBFinalRun | tests/Feature/Engine/InclusiveGatewayTest.php:216-230 | after B completes, the join fires on one token and the process ends with the asserted log |
| InclusiveGatewayTests.TestInclusiveGatewayOnlyB | tests/Feature/Engine/InclusiveGatewayTest.php:188-231 | the whole test: both asserted logs and the end state |
| InclusiveGatewayTests.DefaultRunToB | tests/Feature/Engine/InclusiveGatewayTest.php:248-259 | with A = '2', the run takes the default flow and activates B with the asserted log |
| InclusiveGatewayTests.DefaultRunToA | tests/Feature/Engine/InclusiveGatewayTest.php:269-279 | with A = '1', the run takes the conditioned flow and activates A with the asserted log |
| InclusiveGatewayTests.TestDefaultTransition | tests/Feature/Engine/InclusiveGatewayTest.php:236-280 | the whole test: each instance activates exactly one activity, B by default and A by condition |

## Left out

- `Collaboration::delay` is not modelled, and it never delivers anything. It reads the wall clock twice (`time()`) and calls `send` only when `$delay + $initTime <= time()` (tests/ProcessMaker/Models/Collaboration.php:171-175). Both readings normally fall in the same second, so with a positive delay it normally does nothing. When it does call `send`, it passes `null` as the token, but `send` declares a non-nullable `TokenInterface $token` with no default (line 137). That call fails with a type error before any subscriber is reached. A clock and this failure are outside the model.
- Collaboration.Subscribe: only catch events can be registered, because a `Subscriber` holds a `CatchEvent`. The source's `subscribe` accepts any `MessageListenerInterface` (Collaboration.php:188). `send` then hands every registered node to `getInstancesFor(CatchEventInterface $node, ...)` and calls `getEventDefinitions()` on it (lines 140-142), whether or not its key matches. So a registered listener that is not a catch event makes every later `send` fail at that registration, after the registrations before it have already been delivered to. The model does not represent such listeners or this partial-delivery failure.
- `getInstancesFor` / `getTargetInstances` become the `targets` parameter of `Send`. Instance correlation belongs to the catch event, whose code is not part of this model.
- `execute` on a message listener is not called. Each call becomes a `Delivery(node, instance)` record in the returned sequence. What the listener then does is not part of this model.
- The collaboration's other collections are not modelled: artifacts, message flows, conversations, correlation keys and participants. The same goes for `initCollaboration`, `getParticipants`, `addMessageFlow`, `getMessageFlows` and the getters, and the no-op stubs `setFactory` and `setMessageFlows`. None of them affects subscription or delivery.
- The runtime `is_a(..., SignalEventDefinition)` checks become datatype tags: `Message.Signal` versus `Message.Direct`, and `DefinitionKind.SignalDefinition`.
- `TransitionTrait`, `BaseTrait` and the engine's run loop are not part of this model. These include the code that calls the `init*` hooks, consumes tokens and pushes them along flows.
  - The scheduler in `Engine` is a reconstruction from the feature tests. It runs the first enabled node in node order.
  - The activity lifecycle is complete, then close (ACTIVITY_CLOSED), then leave. These are two scheduler steps, which is why a one-step run returns false.
- The inclusive gateway's implementation is not part of this model. The split and join are specified from the test scenarios.
- InclusiveGatewayTransition.JoinEnabled: a branch counts as pending only when the direct origin of the incoming flow holds a token. Tokens further upstream are not traced. This matches the test processes, where each branch is a single activity; deeper branches are not covered.
- CancelActivityTransition.AssertCondition: the source's token parameter defaults to null (CancelActivityTransition.php:37). Called without a token, `$token->getStatus()` at line 39 fails. The model always takes a `Token`, so this error path is not modelled.
- InclusiveGatewayTransition.Split: on a process that breaks `ValidProcess` by giving one node two default flows, the split with no guard holding takes every default flow. Whatever the engine does with such a graph is not part of this model. On a valid process the split takes exactly one default flow (`InclusiveGatewayTransition.SplitTakesOneDefault`).
- ProcessGraph.Holds: a guard `$data['A']=='1'` is modelled as exact string equality with a missing key failing. PHP's loose `==` would also accept numerically equal strings such as `'01'`.
- Engine.TargetKind: a flow whose target lies outside the process, or is a start event, is treated as ending at an end event. A valid process has no such flow.
- Engine.RunToNextState: the unbounded `runToNextState()` is modelled as a run with any budget large enough (`RunWithLargerBudget`). It is not modelled as a loop without a bound.
- Engine.FireInclusiveGateway: a split with no flow to take halts the run at that gateway (`Halted`). The reaction of the real engine to this graph inconsistency is not part of this model.
- Each run covers a single execution instance. In `testDefaultTransition` the second instance (A = '1') is proved as a separate run from an empty marking.
- The PHPUnit harness, the repositories and the data-store construction are not modelled. The data store is a `map<string, string>` parameter.

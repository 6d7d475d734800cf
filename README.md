# yasm: a table-driven state machine for immutable objects, in Dafny

This project models yasm, a small finite-state-machine engine for immutable
domain objects, together with the telephone example that exercises it.

- **The engine** (`state_machine.dfy`, module `StateMachines`). A `StateMachine`
  class holds three tables. The first is the transition rules keyed by
  (source state, action kind), each key holding an ordered list. The other two
  are the entry hooks and the exit hooks of each state. A `StateBuilder` bound
  to one source state appends to these tables.
- **Dispatch.** `Transition` tries the candidate rules in order. The wildcard
  (`AnyAction`) rules of the current state come first. The rules of the action's
  exact kind follow, unless the action is itself an `AnyAction`. The first guard
  that accepts wins. For that rule the engine runs the source state's exit hooks,
  then the destination state's entry hooks, then the state applier. It wraps the
  action in `AnyAction` for a wildcard rule and calls the rule's callback.
  When no guard accepts, the result is absent. `Loop` dispatches the `LoopAction`
  pseudo-action.
- **Specification.** `Outcome`, `Candidates`, `FirstMatch`, `Handled` and
  `Prepared` state what dispatch computes. The methods are proved against them,
  and the lemmas prove the ordering and hook guarantees.
- **The phone** (`phone.dfy`, module `Phones`). An immutable record with
  copy-with-one-field-changed updaters and `AccountAccumulated`.
- **The phone call machine** (`phone_call_state_machine.dfy`, module
  `PhoneCallStateMachine`). `New` registers the example's table, hooks and
  timeout guard through the builder. It is proved to produce exactly the tables
  of `PhoneTransitions`, `PhoneEntry` and `PhoneExit`. Single-step lemmas and
  the three end-to-end test scenarios are proved about that machine.

Modelling choices:
- **Action kinds.** A Java action's runtime class becomes a discriminant:
  `Kind<K> = AnyKind | LoopKind | EventKind(k)`. A machine's `eventKind`
  function gives the kind of a caller-defined event. Kinds match exactly, so
  `HungUp` and `CallConnected` stay distinct kinds.
- **Time.** Instants and durations are integer milliseconds. Every guard, hook
  and callback receives `now`, the clock reading of the dispatch call. This
  stands for the `Clock` that the example's lambdas capture.
- **The hook-skip test.** The code compares the object with the destination
  state (`inputObject.equals(transition.to)`), and the model keeps that test as
  the machine's `objectEqualsState`. For the phone this is constantly false,
  because `Phone.equals` first compares classes. So hooks and the applier run on
  every accepted rule, even one whose source and destination are the same. Hooks
  are not skipped when the source and destination states are equal; only the
  object-equals-state test can skip them (`HooksAlwaysRun`).
- **Argument checks in `Connected`'s hooks.** The entry hook checks that no call
  is running and the exit hook checks that one is. The hooks are modelled as
  total functions. `CallInvariantPreserved` proves that every transition keeps
  "a call is running exactly in `Connected`", and `RunKeepsCallInvariant` extends
  this to any sequence of dispatches from the initial phone.
  `ConnectedHookChecksHold` and `ReachableHookChecksHold` then state the checks
  themselves: the phone handed to `Connected`'s exit hook has a call running, and
  the phone handed to its entry hook has none. So on phones the machine produces,
  neither check can fail.

## Model

| member | source | states |
|---|---|---|
| `StateMachines.FirstMatch` | src/main/java/com/github/octo47/yasm/StateMachine.java:196-221 | the chosen index is a candidate whose guard accepts, and every earlier guard rejects; the result is absent only when every guard rejects |
| `StateMachines.PermitAlways` | src/main/java/com/github/octo47/yasm/StateMachine.java:163-165 | the guard of a rule registered without one accepts every object |
| `StateMachines.IdentityTransformer` | src/main/java/com/github/octo47/yasm/StateMachine.java:141-143 | the callback of a rule registered without one hands back the object it receives |
| `StateMachines.AddResolution` | src/main/java/com/github/octo47/yasm/StateMachine.java:197-201 | the dispatch's guard feedback returns the reported outcome unchanged |
| `StateMachines.WithMessage` | src/main/java/com/github/octo47/yasm/StateMachine.java:167-169 | the labelled guard accepts exactly when the plain predicate does, because the feedback returns its outcome unchanged |
| `StateMachines.ApplyHooksAppend` | src/main/java/com/github/octo47/yasm/StateMachine.java:227-235 | running the exit hooks and then the entry hooks equals running their concatenation in registration order |
| `StateMachines.StateMachine.constructor` | src/main/java/com/github/octo47/yasm/StateMachine.java:145-154 | the machine records its extractor, applier and kind function, and starts with empty, well-formed tables |
| `StateMachines.StateMachine.KindOf` | src/main/java/com/github/octo47/yasm/StateMachine.java:33-52 | only an `AnyAction` has the wildcard kind and only a `LoopAction` has the loop kind |
| `StateMachines.StateMachine.FromState` | src/main/java/com/github/octo47/yasm/StateMachine.java:99-101 | returns a new builder bound to this machine and the given source state |
| `StateMachines.StateMachine.AddTransition` | src/main/java/com/github/octo47/yasm/StateMachine.java:156-161 | appends one rule at the end of the list for (from, kind); every other key, earlier entry and the hook tables stay unchanged; every rule stays stored under its own state and kind |
| `StateMachines.StateMachine.HandleStateTransition` | src/main/java/com/github/octo47/yasm/StateMachine.java:227-236 | the result is the applier, at the destination, of the object after the source's exit hooks and then the destination's entry hooks, each list in registration order |
| `StateMachines.StateMachine.OnAction` | src/main/java/com/github/octo47/yasm/StateMachine.java:92-96 | callable only with an action of the rule's own kind, the `isAssignableFrom` check; it then applies the rule's callback to that action and object |
| `StateMachines.StateMachine.Transition` | src/main/java/com/github/octo47/yasm/StateMachine.java:183-225 | the result is `Outcome`: the first accepting candidate fires, and the result is absent when none accepts; exactly the guards up to the winner are evaluated, or all of them when none accepts; the callback's kind check holds; no table changes |
| `StateMachines.StateMachine.Loop` | src/main/java/com/github/octo47/yasm/StateMachine.java:179-181 | `loop` is dispatch of the `LoopAction` pseudo-action |
| `StateMachines.StateMachine.CandidatesWellFormed` | src/main/java/com/github/octo47/yasm/StateMachine.java:187-196 | every candidate leaves the current state; each is a wildcard rule or, for an action that is not an `AnyAction`, a rule of its exact kind; all wildcard rules come before all exact-kind rules |
| `StateMachines.StateMachine.CallbackKindMatches` | src/main/java/com/github/octo47/yasm/StateMachine.java:92-94 | the action handed to a candidate's callback, wrapped for a wildcard rule, has the kind the rule was registered under, so the `onAction` check never fails during dispatch |
| `StateMachines.StateMachine.FirstMatchWins` | src/main/java/com/github/octo47/yasm/StateMachine.java:196-220 | when candidate i accepts and all earlier ones reject, the result is candidate i's firing, whatever later candidates would do |
| `StateMachines.StateMachine.AbsentIffNoGuardAccepts` | src/main/java/com/github/octo47/yasm/StateMachine.java:221-224 | the result is absent exactly when no candidate's guard accepts, including when there are no candidates |
| `StateMachines.StateMachine.WildcardShadows` | src/main/java/com/github/octo47/yasm/StateMachine.java:187-196 | the first accepting wildcard rule decides the result for every action, ahead of the exact-kind rules |
| `StateMachines.StateMachine.PreparedReachesDestination` | src/main/java/com/github/octo47/yasm/StateMachine.java:204-205 | when the extractor reads back what the applier records, the object handed to the callback is in the rule's destination state |
| `StateMachines.StateMachine.HooksAlwaysRun` | src/main/java/com/github/octo47/yasm/StateMachine.java:203-208 | when no object equals a state, the hooks and the applier run on every accepted rule, a rule from a state to itself included |
| `StateMachines.StateBuilder.constructor` | src/main/java/com/github/octo47/yasm/StateMachine.java:104-108 | the builder is bound to its machine and source state |
| `StateMachines.StateBuilder.OnEntry` | src/main/java/com/github/octo47/yasm/StateMachine.java:110-113 | appends the hook to the source state's entry list; nothing else changes |
| `StateMachines.StateBuilder.OnExit` | src/main/java/com/github/octo47/yasm/StateMachine.java:115-118 | appends the hook to the source state's exit list; nothing else changes |
| `StateMachines.StateBuilder.PermitIfCallback` | src/main/java/com/github/octo47/yasm/StateMachine.java:120-123 | appends a rule with the given guard and callback |
| `StateMachines.StateBuilder.PermitCallback` | src/main/java/com/github/octo47/yasm/StateMachine.java:125-128 | appends a rule with the always-true guard and the given callback |
| `StateMachines.StateBuilder.PermitIf` | src/main/java/com/github/octo47/yasm/StateMachine.java:130-133 | appends a rule with the given guard and the identity callback |
| `StateMachines.StateBuilder.Permit` | src/main/java/com/github/octo47/yasm/StateMachine.java:135-138 | appends a rule with the always-true guard and the identity callback |
| `Phones.KindOfEvent` | src/test/java/com/github/octo47/yasm/Phone.java:16-58 | each of the four actions has its own kind |
| `Phones.Phone.Of` | src/test/java/com/github/octo47/yasm/Phone.java:105-107 | the phone holds exactly the five given fields |
| `Phones.Phone.WithState` | src/test/java/com/github/octo47/yasm/Phone.java:77-79 | the copy has the given state and the other four fields unchanged |
| `Phones.Phone.WithCallingNumber` | src/test/java/com/github/octo47/yasm/Phone.java:81-83 | the copy has the given number and the other four fields unchanged |
| `Phones.Phone.WithLeftMessage` | src/test/java/com/github/octo47/yasm/Phone.java:85-87 | the copy has the given message and the other four fields unchanged |
| `Phones.Phone.WithStarted` | src/test/java/com/github/octo47/yasm/Phone.java:89-91 | the copy has the given start instant and the other four fields unchanged |
| `Phones.Phone.WithAccumulated` | src/test/java/com/github/octo47/yasm/Phone.java:93-95 | the copy has the given duration and the other four fields unchanged |
| `Phones.Phone.AccountAccumulated` | src/test/java/com/github/octo47/yasm/Phone.java:97-103 | with a running call, the start is cleared and the accumulated duration becomes `now - started`; without one, the phone is unchanged; state, number and message never change |
| `Phones.WithStateRoundTrip` | src/test/java/com/github/octo47/yasm/Phone.java:77-111 | the state read back after `withState(s)` is `s`, and writing back the current state changes nothing |
| `Phones.AccountAccumulatedIdempotent` | src/test/java/com/github/octo47/yasm/Phone.java:97-103 | accounting twice at the same instant equals accounting once |
| `Phones.AccountAccumulatedOverwrites` | src/test/java/com/github/octo47/yasm/Phone.java:97-100 | the previous accumulated duration of a running call does not affect the result |
| `PhoneCallStateMachine.New` | src/test/java/com/github/octo47/yasm/PhoneCallStateMachine.java:14-37 | the builder calls produce exactly the phone's transition table, entry hooks and exit hooks, in registration order, and a well-formed machine |
| `PhoneCallStateMachine.RegisterOffHook` | src/test/java/com/github/octo47/yasm/PhoneCallStateMachine.java:17-19 | on an empty machine, the `OffHook` block leaves exactly its entry hook and the single dial rule |
| `PhoneCallStateMachine.RegisterRinging` | src/test/java/com/github/octo47/yasm/PhoneCallStateMachine.java:21-23 | the `Ringing` block adds exactly the hang-up and connect rules under their own keys and no hooks |
| `PhoneCallStateMachine.RegisterConnected` | src/test/java/com/github/octo47/yasm/PhoneCallStateMachine.java:25-36 | the `Connected` block completes the tables to the phone's full transition table, entry hooks and exit hooks |
| `PhoneCallStateMachine.OffHookEntry` | src/test/java/com/github/octo47/yasm/PhoneCallStateMachine.java:18 | entering `OffHook` clears the number and any start, keeps state and message, and sets the accumulated time to the running call's length, or keeps it when no call runs |
| `PhoneCallStateMachine.DialedCallback` | src/test/java/com/github/octo47/yasm/PhoneCallStateMachine.java:19 | a dial action records its number and nothing else changes; any other action leaves the phone as it is |
| `PhoneCallStateMachine.RingingHungUpCallback` | src/test/java/com/github/octo47/yasm/PhoneCallStateMachine.java:22 | hanging up while ringing clears the number and keeps the other four fields |
| `PhoneCallStateMachine.ConnectedEntry` | src/test/java/com/github/octo47/yasm/PhoneCallStateMachine.java:26-29 | entering `Connected` starts the call at the dispatch instant and keeps the other four fields |
| `PhoneCallStateMachine.ConnectedExit` | src/test/java/com/github/octo47/yasm/PhoneCallStateMachine.java:30-33 | leaving `Connected` with a call running clears the start and sets the accumulated time to the call's length; state, number and message are kept |
| `PhoneCallStateMachine.LeftMessageCallback` | src/test/java/com/github/octo47/yasm/PhoneCallStateMachine.java:35 | a message action records its message and nothing else changes; any other action leaves the phone as it is |
| `PhoneCallStateMachine.IsCallTooLong` | src/test/java/com/github/octo47/yasm/PhoneCallStateMachine.java:39-42 | the timeout guard rejects a phone with no call, rejects when exactly `maxCall` has elapsed and accepts one millisecond later, and once it accepts it accepts at every later instant |
| `PhoneCallStateMachine.NewDefault` | src/test/java/com/github/octo47/yasm/PhoneCallStateMachine.java:10-12 | the one-argument constructor is the machine with the limit `Long.MAX_VALUE` milliseconds |
| `PhoneCallStateMachine.LeavingConnected` | src/test/java/com/github/octo47/yasm/PhoneCallStateMachine.java:17-33 | leaving `Connected` for `OffHook` accounts the call and forgets the number |
| `PhoneCallStateMachine.DialFromOffHook` | src/test/java/com/github/octo47/yasm/PhoneCallStateMachine.java:17-19 | from `OffHook`, dialling gives `Ringing` with the dialled number; message, start and accumulated duration are unchanged |
| `PhoneCallStateMachine.OffHookRejectsOtherActions` | src/test/java/com/github/octo47/yasm/PhoneCallStateMachine.java:17-19 | from `OffHook`, every action other than a dialled call, `loop` included, gives an absent result |
| `PhoneCallStateMachine.RingingHungUp` | src/test/java/com/github/octo47/yasm/PhoneCallStateMachine.java:17-22 | from `Ringing`, hanging up gives `OffHook` with no number, and the message and accumulated duration are kept |
| `PhoneCallStateMachine.RingingConnected` | src/test/java/com/github/octo47/yasm/PhoneCallStateMachine.java:21-29 | from `Ringing` with no running call, connecting gives `Connected` with the call started at `now`; the other fields are unchanged |
| `PhoneCallStateMachine.RingingRejectsOtherActions` | src/test/java/com/github/octo47/yasm/PhoneCallStateMachine.java:21-23 | from `Ringing`, every action other than hanging up and connecting gives an absent result |
| `PhoneCallStateMachine.ConnectedLeftMessage` | src/test/java/com/github/octo47/yasm/PhoneCallStateMachine.java:30-35 | a call within its limit, on a left message, gives `OffHook` with the message set, no number, no start and the elapsed time accumulated |
| `PhoneCallStateMachine.ConnectedHungUp` | src/test/java/com/github/octo47/yasm/PhoneCallStateMachine.java:30-36 | a call within its limit, on hanging up, gives `OffHook` with the message kept, no number, no start and the elapsed time accumulated |
| `PhoneCallStateMachine.ConnectedRejectsOtherActions` | src/test/java/com/github/octo47/yasm/PhoneCallStateMachine.java:34-36 | a call within its limit gives an absent result for every action other than a message or a hang-up, `loop` included |
| `PhoneCallStateMachine.LoopBeforeTimeout` | src/test/java/com/github/octo47/yasm/PhoneCallStateMachine.java:39-42 | `loop` on a call that has lasted at most the limit gives an absent result |
| `PhoneCallStateMachine.TimeoutFires` | src/test/java/com/github/octo47/yasm/PhoneCallStateMachine.java:34-42 | once a call has lasted strictly longer than the limit, every action, `loop` and a left message included, gives `OffHook` with the elapsed time accumulated, no start, and the message left as it was |
| `PhoneCallStateMachine.CallInvariantPreserved` | src/test/java/com/github/octo47/yasm/PhoneCallStateMachine.java:17-36 | every transition keeps "a call is running exactly in `Connected`" |
| `PhoneCallStateMachine.ConnectedHookChecksHold` | src/test/java/com/github/octo47/yasm/PhoneCallStateMachine.java:26-33 | on a phone that keeps the invariant, the rule that fires leaves `Connected` only with a call running (the exit hook's check), and enters `Connected` only with no call running after the exit hooks ran (the entry hook's check) |
| `PhoneCallStateMachine.InitialPhone` | src/test/java/com/github/octo47/yasm/StateMachineTest.java:16 | the phone the scenarios start from is on hook with nothing accumulated, and keeps the call invariant |
| `PhoneCallStateMachine.RunKeepsCallInvariant` | src/test/java/com/github/octo47/yasm/PhoneCallStateMachine.java:17-36 | any sequence of dispatches from a phone that keeps the invariant ends on one that keeps it; a rejected action leaves the phone unchanged |
| `PhoneCallStateMachine.ReachableHookChecksHold` | src/test/java/com/github/octo47/yasm/PhoneCallStateMachine.java:26-33 | on every phone reached from the initial phone, the next dispatch passes both argument checks of `Connected`'s hooks |
| `PhoneCallStateMachine.CallScenario` | src/test/java/com/github/octo47/yasm/StateMachineTest.java:12-49 | dial, connect after 10 s, and after another 10 s leave "hello!" or hang up: both give `OffHook` with 10 s accumulated and no number; the message is "hello!" or absent |
| `PhoneCallStateMachine.DialAndConnect` | src/test/java/com/github/octo47/yasm/StateMachineTest.java:58-61 | from the initial phone, dialling "333-33-33" gives `Ringing` with that number, and connecting at a later instant gives `Connected` with the call started then and nothing accumulated |
| `PhoneCallStateMachine.TimeoutScenario` | src/test/java/com/github/octo47/yasm/StateMachineTest.java:51-76 | with a one-hour limit, `loop` on the call connected at `t0` is absent at `t0`, and 1 h 1 min later gives `OffHook` with that time accumulated and no start |
| `PhoneCallStateMachine.FallbackScenario` | src/test/java/com/github/octo47/yasm/StateMachineTest.java:80-90 | with the default limit, a connected-call event on hook gives an absent result |

## Left out

- Logging, the per-dispatch UUID and the object identifier (`idProvider`, `toString`) are diagnostics only and never affect a result.
- The guard feedback parameter is dropped from the guard signature. Feedback only logs and hands the outcome back, which `WithMessage` shows.
- The `stateActions` map is written by `addTransition` but never read, and is not modelled. `validate()` is an empty stub.
- `getMachineName` is the constant field `machineName`.
- Builder methods return nothing, where the source returns the builder for chaining.
- Callbacks take the action as `Action<A>` and match on it. In the source a callback is typed with its kind and cast. The phone callbacks' fallback branch for another action cannot be reached, because `CallbackKindMatches` shows every callback receives its own kind.
- `isAssignableFrom` in `onAction` is modelled as equality of kinds. Lookup is by exact runtime class, so only the exact kind ever reaches a callback.
- Exceptions are not modelled. Guards, hooks and callbacks are total functions. A phone built by hand that breaks the call invariant (for example `Connected` with no start) gets a result where the source throws. For phones the machine produces, `ReachableHookChecksHold` shows that the two `checkArgument` checks in `Connected`'s hooks never fail.
- The clock (`Clock`, `TestClock`) is the `now` parameter. Time advancing is a larger `now` in a later call.
- `Instant` and `Duration` are unbounded integers of milliseconds. The bounded range of Java's `Instant` and `Duration` is not modelled, so the lemmas also cover instants the source cannot represent. Within that range, `Duration.between` and `compareTo` do not overflow, so the model's arithmetic agrees with the source's there.
- `Phone.equals`, `hashCode` and `toString` are replaced by Dafny's structural equality.
- Thread safety of building the tables while dispatching is not modelled. Every operation here is sequential.

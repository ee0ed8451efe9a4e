# ChanibaL state machine, in Dafny

This project models the delegate-based state machine that drives the phone-throwing game:

- `StateMachine`, the runtime;
- `StateMachineWithExceptionCatching`, its variant that catches exceptions;
- `StateMachineMonoBehaviour`, the component that owns a machine;
- `Game`, the component whose states are the menu, the phone in the hand, the fall and the hit.

A state is a method the machine calls once per run. While it runs, it reads the machine's flags (`EnterState`, `ExitState`, `TimeInState`, ...). It asks for transitions with `SwitchState`, `PushState` and `PopState`. `Update` runs the current state once. It then runs each newly requested state in the same call, until no transition is pending.

The model has two layers.

- **`Semantics`** (semantics.dfy) is the reference semantics, written as functions on a `Machine` value.
  - The value holds every field of the C# object.
  - It also holds a log of what was observable: state runs with the flags they saw, exit and end notifications, and warnings.
  - A state body is a `Script`. Given the state and the view of the machine at the start of the run, it returns the calls the body makes (`Request`s). The runtime performs these in order.
  - Exceptions are the outcome `Raised(failure)`.
  - The hang of a state that keeps switching with the watchdog off is the outcome `Diverged` once the `fuel` runs out.
- **`StateMachineRuntime`** (state_machine.dfy) is the `StateMachine` class itself.
  - Its fields are updated in place, as in the source.
  - Every method is proved to leave the object exactly in the state `Semantics` gives.

The other modules prove properties of these layers and model the components:

- `MachineProperties` (machine_properties.dfy): what one run, one `Update`, the sub-state stack and the watchdog guarantee.
- `LifecycleProperties` (lifecycle_properties.dfy): `End`, exception recovery, the external switches and `TimeInStatePassed`.
- `StateMachineHost` (state_machine_mono_behaviour.dfy): the component's `Start`, `Update`, `OnDestroy`, `StateEnd` and `StateException`.
- `Game` (game.dfy): `SubmitScore`, the four game states and the game's `Update`.
  - What a game state asks of its machine depends only on the machine's flags and the sensors.
  - So the requests are a pure function, `GameScript`.
  - The game's side of every run is replayed in run order from the machine's log. This replay is proved to equal what the state methods do to the game object.

## Model

| member | source | states |
|---|---|---|
| StateMachineRuntime.IdRegistry.constructor | Assets/ChanibaL/StateMachine/StateMachine.cs:70 | the static id counter starts at 0, with no id issued |
| StateMachineRuntime.StateMachine.constructor | Assets/ChanibaL/StateMachine/StateMachine.cs:83-97 | a new machine is `Init(initState)` (see Semantics.Init); its id is the bumped counter, strictly greater than every id issued before |
| StateMachineRuntime.StateMachine.WithExceptionCatching | Assets/ChanibaL/StateMachine/StateMachineMonoBehaviour.cs:13-15 | the same initial machine, carrying the given exception handler |
| Semantics.Init | Assets/ChanibaL/StateMachine/StateMachine.cs:83-94 | the initial state is current; EnterState is true; ExitState, Ended and IsPushedState are false; both counters are 0; the stack is empty; nothing is pending; the watchdog is on with limit 100 |
| Semantics.TimeInStatePassed | Assets/ChanibaL/StateMachine/StateMachine.cs:164-167 | on the view a run reads, a true answer needs a positive DeltaTime and TimeInState at most `t`; with DeltaTime 0 or less it is always false |
| StateMachineRuntime.StateMachine.TimeInStatePassed | Assets/ChanibaL/StateMachine/StateMachine.cs:164-167 | true exactly when `TimeInState <= t < TimeInState + DeltaTime` |
| LifecycleProperties.PassedAtMostOnce | Assets/ChanibaL/StateMachine/StateMachine.cs:160-167 | over the views of one activation (run `k` reads the time of the runs before it and its own DeltaTime, all non-negative), TimeInStatePassed(t) is true on at most one run |
| LifecycleProperties.PassedOnce | Assets/ChanibaL/StateMachine/StateMachine.cs:160-167 | it is true on at least one run when `0 <= t` lies below the time the activation covers |
| LifecycleProperties.PassedNever | Assets/ChanibaL/StateMachine/StateMachine.cs:160-167 | it is true on no run when `t` is at or beyond that time |
| LifecycleProperties.SteadyFrame | Assets/ChanibaL/StateMachine/StateMachine.cs:340-371 | one Update of a settled state that asks for nothing: it stays current and settled, is logged once with the view it read (the frame's DeltaTime), and TimeInState grows by that DeltaTime |
| LifecycleProperties.SteadyFrames | Assets/ChanibaL/StateMachine/StateMachine.cs:340-371 | over a run of frames such a state stays current, and TimeInState is its starting value plus the sum of the frames' DeltaTimes |
| LifecycleProperties.SteadyFramesLog | Assets/ChanibaL/StateMachine/StateMachine.cs:340-371 | over those frames the log grows by exactly the runs of that state, one per frame, in order, each with the view it read |
| LifecycleProperties.SteadyRunsActivation | Assets/ChanibaL/StateMachine/StateMachine.cs:345-370 | when TimeInState is 0 at the start, the views those runs read form one activation |
| LifecycleProperties.SteadyStatePassesOnce | Assets/ChanibaL/StateMachine/StateMachine.cs:160-167 | over those runs, TimeInStatePassed(t) for `t >= 0` is true on some run exactly when `t` is below the time covered, and never on two runs |
| LifecycleProperties.InitialActivation | Assets/ChanibaL/StateMachine/StateMachine.cs:83-94 | the initial state's runs, from its first Update on, form one activation while it asks for nothing |
| LifecycleProperties.SwitchingRun | Assets/ChanibaL/StateMachine/StateMachine.cs:384-388 | a run whose body only switches is logged and leaves the switch's result |
| LifecycleProperties.EnteringFrame | Assets/ChanibaL/StateMachine/StateMachine.cs:352-370 | in the frame that enters a state by a transition, the entry run reads TimeInState 0 and the frame's DeltaTime, and the frame ends with TimeInState still 0 |
| LifecycleProperties.EnteredStatePassesTwice | Assets/ChanibaL/StateMachine/StateMachine.cs:359-370 | so for `t` below both frames' DeltaTimes, TimeInStatePassed(t) is true on the entry run and again on the next frame's run |
| Semantics.SubStateMachineDepth | Assets/ChanibaL/StateMachine/StateMachine.cs:471-474 | the depth is the number of return states on the stack |
| Semantics.AddExitHandler | Assets/ChanibaL/StateMachine/StateMachine.cs:183 | subscribing to OnExitState appends the subscriber and changes nothing else |
| Semantics.AddEndHandler | Assets/ChanibaL/StateMachine/StateMachine.cs:199 | subscribing to OnEndSM appends the subscriber and changes nothing else |
| Semantics.SwitchCore | Assets/ChanibaL/StateMachine/StateMachine.cs:225-244 | the target is pending, and also forced when no state is running; ExitState is raised, both counters are 0, the exit subscribers are cleared, the log only grows, and no other field changes |
| Semantics.SwitchState | Assets/ChanibaL/StateMachine/StateMachine.cs:255-261 | the target is pending, ExitState is raised and IsPushedState lowered; the current state and the stack are kept |
| Semantics.SwitchStateExternalDelayed | Assets/ChanibaL/StateMachine/StateMachine.cs:290-296 | the same transition request, forced when no state is running |
| Semantics.SwitchStateExternalImmidiate | Assets/ChanibaL/StateMachine/StateMachine.cs:272-279 | the log only grows; a normal return leaves the machine idle with nothing pending or forced and EnterState false |
| Semantics.ForceState | Assets/ChanibaL/StateMachine/StateMachine.cs:301-309 | no state is current and the target is pending; EnterState and ExitState are true, both counters are 0, and the stack is kept |
| Semantics.SwitchStateWithoutExitState | Assets/ChanibaL/StateMachine/StateMachine.cs:299-312 | without `immidiate` it returns normally with no state current, the target pending and EnterState true; with it, a normal return leaves the machine idle with nothing pending |
| Semantics.AssertIsPushedState | Assets/ChanibaL/StateMachine/StateMachine.cs:436-440 | it throws exactly when IsPushedState differs from the expected value, and then with that value |
| StateMachineRuntime.StateMachine.SubStateMachineDepth | Assets/ChanibaL/StateMachine/StateMachine.cs:471-474 | the depth is the size of the stack |
| StateMachineRuntime.StateMachine.AddExitHandler | Assets/ChanibaL/StateMachine/StateMachine.cs:183 | subscribing to OnExitState appends the subscriber and changes nothing else |
| StateMachineRuntime.StateMachine.AddEndHandler | Assets/ChanibaL/StateMachine/StateMachine.cs:199 | subscribing to OnEndSM appends the subscriber and changes nothing else |
| StateMachineRuntime.StateMachine.SwitchCore | Assets/ChanibaL/StateMachine/StateMachine.cs:225-244 | the object ends in the state `_SwitchState` gives |
| MachineProperties.SwitchCoreWithoutRuns | Assets/ChanibaL/StateMachine/StateMachine.cs:225-244 | a transition request runs no state; it keeps the current state, EnterState and every run field, and zeroes both counters |
| MachineProperties.SwitchNotifies | Assets/ChanibaL/StateMachine/StateMachine.cs:225-261 | SwitchState makes the argument pending and also records it in forceNextChange when the machine is idle; it raises ExitState, lowers IsPushedState and zeroes both counters; it notifies each OnExitState subscriber exactly once, in order, then clears them; nothing else changes |
| MachineProperties.ExitEventsNotify | Assets/ChanibaL/StateMachine/StateMachine.cs:189-193 | firing OnExitState notifies exactly its subscribers, in order |
| MachineProperties.NotifiedAcross | Assets/ChanibaL/StateMachine/StateMachine.cs:240-241 | steps that notify nobody leave the notifications of a stretch of the log unchanged |
| StateMachineRuntime.StateMachine.SwitchState | Assets/ChanibaL/StateMachine/StateMachine.cs:255-261 | the object ends in the state Semantics.SwitchState gives; a warning is logged when no state is running |
| StateMachineRuntime.StateMachine.SwitchStateExternalDelayed | Assets/ChanibaL/StateMachine/StateMachine.cs:290-296 | the same transition request, with a warning when a state is running |
| LifecycleProperties.DelayedSwitchNextUpdate | Assets/ChanibaL/StateMachine/StateMachine.cs:290-296 | the delayed switch keeps the current state, makes the target pending, raises ExitState and lowers IsPushedState; on the next Update, the old state runs one exit pass and then the target runs with EnterState true and ExitState false |
| StateMachineRuntime.StateMachine.SwitchStateExternalImmidiate | Assets/ChanibaL/StateMachine/StateMachine.cs:272-279 | the object ends as the delayed switch followed by Update(0) leaves it |
| LifecycleProperties.ImmediateSwitchLands | Assets/ChanibaL/StateMachine/StateMachine.cs:272-279 | when neither state asks for more, the call returns with the target current and nothing pending; it leaves the machine idle with EnterState, ExitState and IsPushedState false, FramesInState 1 and TimeInState 0 |
| StateMachineRuntime.StateMachine.SwitchStateWithoutExitStateDoNotUseUnlessDesperate | Assets/ChanibaL/StateMachine/StateMachine.cs:299-312 | the object ends as the forced switch leaves it, followed by Update(0) in the immediate mode |
| StateMachineRuntime.StateMachine.ResetForForce | Assets/ChanibaL/StateMachine/StateMachine.cs:301-307 | both counters are zeroed; ExitState is false and EnterState true; nothing is pending and no state is current |
| LifecycleProperties.ForceStateFacts | Assets/ChanibaL/StateMachine/StateMachine.cs:299-311 | the delayed forced switch leaves no state current and the replacement pending; EnterState and ExitState are true and both counters zero; every exit subscriber is notified once and then cleared |
| Semantics.PushState | Assets/ChanibaL/StateMachine/StateMachine.cs:449-456 | the stack grows by one, holding `returnState ?? CurrentState` on top; IsPushedState is raised and the inner state is pending |
| StateMachineRuntime.StateMachine.PushState | Assets/ChanibaL/StateMachine/StateMachine.cs:449-456 | the object ends in the state Semantics.PushState gives |
| Semantics.PopState | Assets/ChanibaL/StateMachine/StateMachine.cs:463-468 | it fails exactly on an empty stack, and then changes nothing; otherwise the stack loses its top, which becomes pending with ExitState raised, and IsPushedState is kept |
| StateMachineRuntime.StateMachine.PopState | Assets/ChanibaL/StateMachine/StateMachine.cs:463-468 | the object ends in the state Semantics.PopState gives, with the same outcome |
| MachineProperties.PushThenPop | Assets/ChanibaL/StateMachine/StateMachine.cs:449-474 | Push followed by Pop succeeds; it restores the stack and the depth and makes the return state pending |
| MachineProperties.PushAllStack | Assets/ChanibaL/StateMachine/StateMachine.cs:449-456 | a series of pushes appends the return states to the stack in order |
| MachineProperties.PopAllStack | Assets/ChanibaL/StateMachine/StateMachine.cs:463-468 | popping the top part of a stack succeeds and targets its states in reverse order |
| MachineProperties.PushesPopInReverse | Assets/ChanibaL/StateMachine/StateMachine.cs:449-468 | n pushes then n pops restore the stack and target the return states in reverse; one more pop on an originally empty stack fails |
| StateMachineRuntime.StateMachine.AssertIsPushedState | Assets/ChanibaL/StateMachine/StateMachine.cs:436-440 | it fails exactly when IsPushedState differs from the expected value, and changes nothing |
| Semantics.Watchdog | Assets/ChanibaL/StateMachine/StateMachine.cs:406-418 | it only touches its two counters; when disabled it does nothing; when enabled it records the frame; with limit 0 or less it never throws; with a positive limit the run count restarts on a new frame, goes up by one, and it throws exactly when the count passes the limit |
| StateMachineRuntime.StateMachine.Watchdog | Assets/ChanibaL/StateMachine/StateMachine.cs:406-418 | the object ends in the state Semantics.Watchdog gives, with the same outcome |
| MachineProperties.WatchdogSameFrame | Assets/ChanibaL/StateMachine/StateMachine.cs:411-417 | within one frame, n more runs pass exactly when they stay within the limit; the first run beyond the limit throws |
| MachineProperties.WatchdogTripsAfterLimit | Assets/ChanibaL/StateMachine/StateMachine.cs:411-417 | from a new frame, n runs pass exactly when n is at most the limit; run limit+1 throws |
| MachineProperties.WatchdogNeverTrips | Assets/ChanibaL/StateMachine/StateMachine.cs:408-416 | a disabled watchdog, or one whose limit is not positive, never throws and never counts up |
| Semantics.Update | Assets/ChanibaL/StateMachine/StateMachine.cs:340-371 | Ended is never reset, and the log only grows; a normal return leaves the machine idle, with EnterState false and nothing pending or forced |
| StateMachineRuntime.StateMachine.Update | Assets/ChanibaL/StateMachine/StateMachine.cs:340-371 | the object ends in the state Semantics.Update gives, with the same outcome |
| StateMachineRuntime.StateMachine.Begin | Assets/ChanibaL/StateMachine/StateMachine.cs:342-345 | the machine is executing, forceNextChange becomes pending and DeltaTime is set |
| StateMachineRuntime.StateMachine.AfterFirstRun | Assets/ChanibaL/StateMachine/StateMachine.cs:347-350 | EnterState is lowered; the warning is logged when the machine has ended outside End |
| Semantics.Loop | Assets/ChanibaL/StateMachine/StateMachine.cs:352-364 | a normal exit leaves nothing pending; EnterState stays false when it started false |
| StateMachineRuntime.StateMachine.Loop | Assets/ChanibaL/StateMachine/StateMachine.cs:352-364 | the transition loop leaves the object as Semantics.Loop does |
| StateMachineRuntime.StateMachine.EnterNext | Assets/ChanibaL/StateMachine/StateMachine.cs:354-360 | the pending state becomes current with EnterState true, ExitState false and TimeInState 0 |
| StateMachineRuntime.StateMachine.Finish | Assets/ChanibaL/StateMachine/StateMachine.cs:366-370 | the machine is idle, nothing is forced, FramesInState goes up by one and TimeInState by the local delta |
| MachineProperties.UpdateWithoutEnd | Assets/ChanibaL/StateMachine/StateMachine.cs:340-364 | with no state calling End: the first run is of the current state, seeing its flags and the new DeltaTime; a failed first run ends the Update; every later run is of a newly entered state, seeing EnterState true and ExitState false |
| MachineProperties.LoopWithoutEnd | Assets/ChanibaL/StateMachine/StateMachine.cs:352-370 | each newly entered state runs with EnterState true and ExitState false; with nothing pending the counters grow by 1 and the delta; after a chain of transitions they are 1 and 0 |
| MachineProperties.UpdateCounters | Assets/ChanibaL/StateMachine/StateMachine.cs:352-370 | when no state calls End (`NoEnd`) and a pending forced switch comes with FramesInState 0 (as ForceState leaves it): the first run leaves both counters as they were, or resets both to 0 when it switches (to null included); after a normal Update that ends in the state of that first run, FramesInState is one more than the first run left it and TimeInState grew by the argument; after at least one transition they are 1 and 0 |
| MachineProperties.UpdateKeepsDeltaTime | Assets/ChanibaL/StateMachine/StateMachine.cs:345 | when no state calls End (`NoEnd`), every state run during an Update sees the DeltaTime passed to it, and the property keeps that value |
| MachineProperties.LastSwitchWins | Assets/ChanibaL/StateMachine/StateMachine.cs:238 | when a run makes several switch requests, the last one is pending; the exit subscribers are notified exactly once |
| MachineProperties.ExecWithoutEnd | Assets/ChanibaL/StateMachine/StateMachine.cs:225-244 | calls other than End made by a body run no state and keep the run fields; they either keep the pending state and counters or zero the counters |
| MachineProperties.RunWithoutEnd | Assets/ChanibaL/StateMachine/StateMachine.cs:384-388 | a run whose body, on the view it reads, does not call End (`RunCallsNoEnd`; other states may) runs only the current state, seeing its own view; it terminates, and is logged first when the watchdog lets it through |
| MachineProperties.BaseRunWithoutEnd | Assets/ChanibaL/StateMachine/StateMachine.cs:384-388 | the same, for the runtime's own RunState |
| MachineProperties.LoopSettles | Assets/ChanibaL/StateMachine/StateMachine.cs:352-364 | on a machine whose exception handler, if it has one, never names a replacement (`NeverRedirects`, as the default StateException) and whose states never call End (`NoEnd`), with the watchdog armed, the transition loop always ends, normally or by a throw |
| MachineProperties.UpdateSettles | Assets/ChanibaL/StateMachine/StateMachine.cs:340-371 | under the same two conditions, with the watchdog on and a positive limit, Update never hangs |
| MachineProperties.RedirectedRun | Assets/ChanibaL/StateMachine/StateMachineMonoBehaviour.cs:18-30 | with a handler that answers every failure with a state whose body always throws, each run of that state returns normally with the same state pending again |
| MachineProperties.RedirectedLoopHangs | Assets/ChanibaL/StateMachine/StateMachine.cs:352-364 | with such a handler the transition loop never settles, whatever the fuel and the watchdog limit |
| MachineProperties.RedirectedUpdateHangs | Assets/ChanibaL/StateMachine/StateMachine.cs:340-371 | and Update from that state never returns |
| MachineProperties.SelfSwitchHangs | Assets/ChanibaL/StateMachine/StateMachine.cs:352-364 | with the watchdog off, a state that always switches to itself makes Update hang |
| MachineProperties.SelfSwitchTripsWatchdog | Assets/ChanibaL/StateMachine/StateMachine.cs:406-418 | with the watchdog on, the same state makes Update throw the watchdog failure |
| MachineProperties.SelfSwitchRun | Assets/ChanibaL/StateMachine/StateMachine.cs:384-388 | one run of that state succeeds with itself pending |
| Semantics.RunState | Assets/ChanibaL/StateMachine/StateMachineMonoBehaviour.cs:18-30 | Ended is never reset, and the log only grows |
| StateMachineRuntime.StateMachine.RunState | Assets/ChanibaL/StateMachine/StateMachineMonoBehaviour.cs:18-30 | the run, with recovery when a handler is installed, leaves the object as Semantics.RunState does |
| Semantics.BaseRunState | Assets/ChanibaL/StateMachine/StateMachine.cs:384-388 | Ended is never reset, and the log only grows |
| StateMachineRuntime.StateMachine.BaseRunState | Assets/ChanibaL/StateMachine/StateMachine.cs:384-388 | the watchdog, then the current state's body, leave the object as Semantics.BaseRunState does |
| Semantics.Exec | Assets/ChanibaL/StateMachine/StateMachine.cs:387 | a body's calls never reset Ended and only extend the log |
| StateMachineRuntime.StateMachine.Exec | Assets/ChanibaL/StateMachine/StateMachine.cs:387 | performing a body's calls in order leaves the object as Semantics.Exec does |
| Semantics.Perform | Assets/ChanibaL/StateMachine/StateMachine.cs:387 | one call from a body never resets Ended and only extends the log |
| StateMachineRuntime.StateMachine.Perform | Assets/ChanibaL/StateMachine/StateMachine.cs:387 | one call from a body leaves the object as Semantics.Perform does |
| LifecycleProperties.RecoveryAfterFailure | Assets/ChanibaL/StateMachine/StateMachineMonoBehaviour.cs:18-30 | when the failing run's body does not call End on the view it reads (`RunCallsNoEnd`; other states may), a failing run asks the handler with the state current when the run began and the very failure, and logs it; a non-null answer suppresses the failure and makes the delayed forced switch; a null answer rethrows the failure unchanged |
| LifecycleProperties.WatchdogTripIsCaught | Assets/ChanibaL/StateMachine/StateMachineMonoBehaviour.cs:18-30 | a watchdog trip reaches the same handler, which may redirect it |
| LifecycleProperties.RecoveredStateRunsInSameUpdate | Assets/ChanibaL/StateMachine/StateMachineMonoBehaviour.cs:25-27 | when the failing first run's body does not call End (`RunCallsNoEnd`; other states may), after recovery, within the same Update, the replacement runs with EnterState true |
| LifecycleProperties.QuietRun | Assets/ChanibaL/StateMachine/StateMachine.cs:384-388 | a run whose body asks nothing only logs the run |
| LifecycleProperties.LoopEntersPending | Assets/ChanibaL/StateMachine/StateMachine.cs:352-361 | whatever the states do, the loop first runs the pending state, entered, when the watchdog lets it |
| LifecycleProperties.RunLogsFirst | Assets/ChanibaL/StateMachine/StateMachine.cs:384-388 | a run the watchdog lets through logs the current state with its view before anything its body does |
| Semantics.Ending | Assets/ChanibaL/StateMachine/StateMachine.cs:323-327 | End's first part marks the machine ended, notifies the exit then the end subscribers, sets ignoreEndUpdate and lowers EnterState |
| StateMachineRuntime.StateMachine.MarkEnded | Assets/ChanibaL/StateMachine/StateMachine.cs:323-327 | the object ends as Semantics.Ending gives |
| Semantics.End | Assets/ChanibaL/StateMachine/StateMachine.cs:319-331 | afterwards the machine has ended and the log only grew; on an ended machine nothing changes |
| StateMachineRuntime.StateMachine.End | Assets/ChanibaL/StateMachine/StateMachine.cs:319-331 | the object ends as Semantics.End gives, with the same outcome |
| LifecycleProperties.PerformInFinalPass | Assets/ChanibaL/StateMachine/StateMachine.cs:319-322 | during End's final pass (ended, ignoreEndUpdate set) any call from a body, End included, keeps the pass final and logs no "ended, but still updating" warning |
| LifecycleProperties.ExecInFinalPass | Assets/ChanibaL/StateMachine/StateMachine.cs:387 | the same for all the calls of one body |
| LifecycleProperties.RunInFinalPass | Assets/ChanibaL/StateMachine/StateMachineMonoBehaviour.cs:18-30 | the same for one state run, recovery included |
| LifecycleProperties.LoopInFinalPass | Assets/ChanibaL/StateMachine/StateMachine.cs:352-364 | the same for the transition loop |
| LifecycleProperties.UpdateInFinalPass | Assets/ChanibaL/StateMachine/StateMachine.cs:340-349 | the same for the whole Update that End makes |
| LifecycleProperties.EndFirstCall | Assets/ChanibaL/StateMachine/StateMachine.cs:319-331 | whatever the states do, the first End notifies the subscribers, then runs the current state once more with EnterState false, Ended true, ExitState unchanged and DeltaTime 0; no "ended, but still updating" warning follows, and a normal return clears ignoreEndUpdate |
| LifecycleProperties.EndTwice | Assets/ChanibaL/StateMachine/StateMachine.cs:321 | a second End changes nothing |
| StateMachineHost.StateException | Assets/ChanibaL/StateMachine/StateMachineMonoBehaviour.cs:95-97 | the default handler answers null |
| StateMachineHost.DefaultHandlerPropagates | Assets/ChanibaL/StateMachine/StateMachineMonoBehaviour.cs:26-29 | with the default handler, every failure propagates unchanged, only logged |
| StateMachineHost.HostScript | Assets/ChanibaL/StateMachine/StateMachineMonoBehaviour.cs:76-84 | StateEnd runs its own body; every other state runs the game's |
| StateMachineHost.StateEndRequests | Assets/ChanibaL/StateMachine/StateMachineMonoBehaviour.cs:81-84 | StateEnd calls End exactly on its enter pass, and does nothing otherwise |
| StateMachineHost.StateMachineMonoBehaviour.constructor | Assets/ChanibaL/StateMachine/StateMachineMonoBehaviour.cs:39-45 | a component has no machine before Start |
| StateMachineHost.StateMachineMonoBehaviour.Start | Assets/ChanibaL/StateMachine/StateMachineMonoBehaviour.cs:48-51 | Start builds a fresh exception-catching machine whose initial state is StateInit and whose handler is StateException |
| StateMachineHost.StateMachineMonoBehaviour.Update | Assets/ChanibaL/StateMachine/StateMachineMonoBehaviour.cs:54-63 | one frame is the machine's Update, with StateEnd added to the component's states |
| StateMachineHost.Destroy | Assets/ChanibaL/StateMachine/StateMachineMonoBehaviour.cs:66-75 | nothing happens in StateEnd; from inside a run, StateEnd becomes pending with ExitState raised and the current state kept; when idle, it is the immediate external switch to StateEnd |
| StateMachineHost.StateMachineMonoBehaviour.OnDestroy | Assets/ChanibaL/StateMachine/StateMachineMonoBehaviour.cs:66-75 | without a machine nothing happens; otherwise the machine ends as Destroy gives |
| StateMachineHost.StateMachineMonoBehaviour.OnApplicationQuit | Assets/ChanibaL/StateMachine/StateMachineMonoBehaviour.cs:87-89 | the same as OnDestroy |
| StateMachineHost.DestroyFromIdleEnds | Assets/ChanibaL/StateMachine/StateMachineMonoBehaviour.cs:66-84 | destroying an idle machine whose state is quiet on exit leaves it ended, idle, in StateEnd with nothing pending; every OnEndSM subscriber has been notified |
| StateMachineHost.EndEnterPass | Assets/ChanibaL/StateMachine/StateMachineMonoBehaviour.cs:81-84 | StateEnd's enter pass ends the machine, staying in StateEnd, and notifies every end subscriber |
| StateMachineHost.StaleEndPass | Assets/ChanibaL/StateMachine/StateMachine.cs:319-331 | the End called from StateEnd enters StateEnd once more, through the stale forceNextChange; that pass calls no second End |
| StateMachineHost.EndedEntry | Assets/ChanibaL/StateMachine/StateMachine.cs:352-364 | entering StateEnd on an ended machine runs it once without calling End again |
| StateMachineHost.EndingNotifies | Assets/ChanibaL/StateMachine/StateMachine.cs:325 | every OnEndSM subscriber is notified when End starts |
| Game.AfterSwitch | Assets/ChanibaL/StateMachine/StateMachine.cs:239-243 | after its own SwitchState, a body reads ExitState true, both counters 0 and IsPushedState false, and the other flags unchanged |
| Game.SwitchViewMatches | Assets/ChanibaL/StateMachine/StateMachine.cs:255-261 | that view is what the machine holds after SwitchState |
| Game.InitRequests | Assets/Game.cs:52-56 | StateInit switches to StateMenu |
| Game.MenuRequests | Assets/Game.cs:66-67 | StateMenu asks for StateInHand exactly when the accelerometer is at least `high` |
| Game.FallingRequests | Assets/Game.cs:88-92 | StateFalling asks for StateInHand when stationary after 0.25 s, or else for StateHit at `high` after 0.1 s; the second test reads the zeroed time |
| Game.InHandRequests | Assets/Game.cs:105-113 | StateInHand asks for StateFalling in free fall or at `high` after 0.2 s; it asks for StateMenu after 8 s only when neither throw test fired |
| Game.HitRequests | Assets/Game.cs:121-125 | StateHit asks for StateInHand when stationary, or else StateFalling in free fall, after 0.3 s |
| Game.GameScript | Assets/Game.cs:52-130 | StateInit always asks for StateMenu; states past StateHit (StateEnd) ask the game for nothing |
| Game.GameScriptShape | Assets/Game.cs:52-130 | each game state asks for at most one switch, to a non-null state, and never for End |
| Game.GameRunPends | Assets/Game.cs:52-130 | a game state's run leaves its one target pending with ExitState raised and the counters zeroed, or changes nothing |
| Game.ScoreRecords | Assets/Game.cs:15-39 | a fall under 0.1 s changes nothing; otherwise the longest fall and most rotations become maxima, and the stable throw record moves only below 100 degrees; records never decrease; `improved` holds exactly when a record changed |
| Game.UI.constructor | Assets/UI.cs:20-22 | the score panel starts with all three records at 0 |
| Game.Game.constructor | Assets/Game.cs:4-12 | the game owns a component with StateInit and StateEnd, and a score panel; nothing has been played |
| Game.Submit | Assets/Game.cs:15-39 | the records become ScoreRecords' records; the record sound is added exactly when a record changed; nothing else changes |
| Game.Game.SubmitScore | Assets/Game.cs:15-39 | the panel's records become ScoreRecords' records, and the record sound is played exactly when one improved |
| Game.MenuEffects | Assets/Game.cs:59-73 | StateMenu changes only whether the menu and the score panel are active |
| Game.Game.StateMenu | Assets/Game.cs:59-73 | the game ends in the state MenuEffects gives |
| Game.MenuShowsAndHides | Assets/Game.cs:59-73 | StateMenu shows the menu and hides the score panel on its enter pass; it reverses both on its exit pass, which includes the run that asks for StateInHand |
| Game.FallingEffects | Assets/Game.cs:79-98 | StateFalling never changes whether the menu or the score panel is active, and only adds sounds |
| Game.Game.StateFalling | Assets/Game.cs:79-98 | the game ends in the state FallingEffects gives |
| Game.FallingTimesAndSubmits | Assets/Game.cs:79-98 | the fall timer restarts on entry and grows by the frame delta each run; the score is submitted exactly on the exit pass, with the rotation since entry |
| Game.InHandEffects | Assets/Game.cs:101-114 | StateInHand only adds sounds |
| Game.Game.StateInHand | Assets/Game.cs:101-114 | the game ends in the state InHandEffects gives |
| Game.InHandOnlyTaunts | Assets/Game.cs:102-103 | StateInHand only plays the taunt, when the frame's draw says so |
| Game.HitEffects | Assets/Game.cs:117-130 | StateHit only adds sounds |
| Game.Game.StateHit | Assets/Game.cs:117-130 | the game ends in the state HitEffects gives |
| Game.HitSounds | Assets/Game.cs:117-130 | StateHit plays the hurt sound on entry and, on its exit pass, the survived sound when the draw allows; nothing else changes |
| Game.RunEffects | Assets/Game.cs:59-130 | any state run only adds sounds; StateInit and StateEnd leave the game unchanged |
| Game.Replay | Assets/Game.cs:59-130 | any stretch of runs only adds sounds |
| Game.Game.RunState | Assets/Game.cs:59-130 | running a state method leaves the game as RunEffects gives |
| Game.Game.ReplayRuns | Assets/Game.cs:59-130 | running the logged states in order leaves the game as Replay gives |
| Game.ReplayKeepsRecords | Assets/Game.cs:22-35 | no sequence of runs lowers a record |
| Game.Game.Update | Assets/ChanibaL/StateMachine/StateMachineMonoBehaviour.cs:54-63 | one frame leaves the machine as its Update gives and the game as the replay of the runs it logged |
| StateMachineHost.WithoutStateEnd | Assets/ChanibaL/StateMachine/StateMachineMonoBehaviour.cs:81-84 | the component's states with StateEnd's body emptied: StateEnd asks nothing, every other state asks what the game's state asks |
| StateMachineHost.ExecAgrees | Assets/ChanibaL/StateMachine/StateMachine.cs:387 | calls without End do the same whatever the state bodies are |
| StateMachineHost.RunAgrees | Assets/ChanibaL/StateMachine/StateMachineMonoBehaviour.cs:18-30 | with only state `e` calling End, a run is the same under two sets of bodies that differ only in `e`, unless it is a run of `e` the watchdog lets through |
| StateMachineHost.LoopAgrees | Assets/ChanibaL/StateMachine/StateMachine.cs:352-364 | the transition loop is the same under both, unless it logs a run of `e` |
| StateMachineHost.UpdateAgrees | Assets/ChanibaL/StateMachine/StateMachine.cs:340-364 | an Update and its first run are the same under both, unless the Update logs a run of `e` |
| StateMachineHost.HostUpdateWithoutStateEnd | Assets/ChanibaL/StateMachine/StateMachineMonoBehaviour.cs:54-63 | when the game's states never call End, the component's Update is that of a machine with no state calling End and a handler that never redirects, unless StateEnd runs in it |
| StateMachineHost.HostUpdateSettles | Assets/ChanibaL/StateMachine/StateMachineMonoBehaviour.cs:54-63 | so, with the watchdog on, the component's Update never hangs unless StateEnd runs in it |
| StateMachineHost.HostUpdateKeepsDeltaTime | Assets/ChanibaL/StateMachine/StateMachineMonoBehaviour.cs:54-63 | and every run in it reads the DeltaTime passed to it, which the machine keeps, unless StateEnd runs in it |
| StateMachineHost.HostUpdateCounters | Assets/ChanibaL/StateMachine/StateMachineMonoBehaviour.cs:54-63 | and it counts frames as MachineProperties.UpdateCounters says, unless StateEnd runs in it |
| Game.GameNeverEnds | Assets/Game.cs:52-130 | no state of the game calls End |
| Game.GameFrameSettles | Assets/ChanibaL/StateMachine/StateMachineMonoBehaviour.cs:54-63 | a frame of the game, with the watchdog on, returns normally or by an exception, and every run in it reads the frame's delta time, unless StateEnd runs in that frame |

## Left out

- Logging (`Debug.Log*`), `ToString`, `StateName`, delegate reflection and the `logThisStateMachine` flag: these only write to the console. Warnings appear in the log as `Warned` events.
- Floating point: `float` times are `real`, so rounding is not modelled.
- The id counter and the watchdog counters are unbounded integers. The 32-bit wrap-around after 2^31 machines or runs is not modelled.
- `Time.frameCount`, `Time.deltaTime`, the sensors and the random draws are inputs. One reading and one pair of draws is used per frame, for every run in that frame.
- The accelerometer level (an ordered enum) is given as three booleans: stationary, freefall, and at least `high`.
- A hang has no value in Dafny. Update and the transition loop carry a `fuel` bound instead, and running out of it is the outcome `Diverged`. The termination lemmas show when enough fuel rules it out. The hang lemmas show when no fuel amount does.
- Event subscribers are identified by ids and only their notification is logged. A handler that calls back into the machine is not modelled.
- The external switch variants and `SwitchStateWithoutExitStateDoNotUseUnlessDesperate` called from inside a state body are not requests of `Script`. Immediate ones nested in a running Update would re-enter it without bound. Recovery uses the forced switch directly.
- Scripts decide their requests from the view at the start of the run. A body that reads a flag after its own switch is written with that switch threaded through (`AfterSwitch`).
- `Application.isPlaying`, `DestroyImmediate` and `gameObject.name`: editor behaviour, not modelled.
- Sensors.cs, UI.cs's text rendering, AudioEffectPlayer.cs beyond the list of sounds played, and the other scene scripts are not part of this model.
- Game's `StateInit` also sets `logThisStateMachine` on the machine; only its switch is modelled.
- LifecycleProperties.DelayedSwitchNextUpdate, ImmediateSwitchLands and StateMachineHost.DestroyFromIdleEnds: each is proved under a watchdog that still has room in the frame, and for states that ask nothing on the passes involved.
- LoopSettles (MachineProperties.LoopSettles): proved only for a handler that never names a replacement (none, or the default StateException) and for states that never call End. No component machine meets the second condition, since its StateEnd calls End; for the component, StateMachineHost.HostUpdateSettles carries the result over to every Update in which StateEnd does not run. A handler that answers every failure, the watchdog's included, with a state that always throws keeps the loop running forever (MachineProperties.RedirectedLoopHangs). A state that calls End re-enters Update from inside the loop; termination through that nesting is not proved.
- UpdateSettles (MachineProperties.UpdateSettles): the same two conditions as LoopSettles, so it covers no component machine directly; StateMachineHost.HostUpdateSettles and Game.GameFrameSettles cover the component's and the game's Update when StateEnd does not run. MachineProperties.RedirectedUpdateHangs shows the handler case.
- UpdateKeepsDeltaTime (MachineProperties.UpdateKeepsDeltaTime): stated for Updates where no state calls End, which no component machine meets (its StateEnd calls End); StateMachineHost.HostUpdateKeepsDeltaTime covers the component's Update when StateEnd does not run. End's nested Update(0) sets DeltaTime to 0, and the runs after it read 0.
- SteadyStatePassesOnce (LifecycleProperties.SteadyStatePassesOnce): proved for a state that asks for nothing on its runs, from a frame boundary at which its TimeInState is 0: the initial state, or a state after the frame that entered it. The entering frame itself is covered by LifecycleProperties.EnteredStatePassesTwice.
- MachineProperties.UpdateCounters: stated for Updates where no state calls End, which no component machine meets (its StateEnd calls End); StateMachineHost.HostUpdateCounters covers the component's Update when StateEnd does not run. A nested End re-enters Update and restarts the counters itself.
- StateMachineHost.HostUpdateSettles, HostUpdateKeepsDeltaTime and HostUpdateCounters: say nothing about an Update in which StateEnd runs, which happens only once OnDestroy has switched to it; that Update nests End's final pass, the case the plain lemmas leave out.
- Game.GameFrameSettles: says nothing about a frame in which StateEnd runs, for the same reason.

## Where the code and its comments differ

The model follows the code:

- The `DeltaTime` property is not zeroed for states entered later in the same Update. Only the local delta added to `TimeInState` is zeroed.
- A recovered state runs within the same Update, although the recovery comment says it waits for the next Update. The forced switch only stops `Update(0)` from being called recursively.
- The forced switch still raises ExitState and fires the OnExitState subscribers, despite its name.
- `PopState` leaves `IsPushedState` as it was.
- `End` sets `Ended` before notifying. An ended machine still runs its states on later Updates, with a warning.
- `TimeInStatePassed` is documented to answer true only once per state run (StateMachine.cs:160). A state entered by a transition inside an Update runs with TimeInState 0 and that frame's DeltaTime. The Update then adds the zeroed local delta, so TimeInState is still 0 on the next frame. For any `t` below both frames' DeltaTimes the answer is true on both runs (LifecycleProperties.EnteredStatePassesTwice). From the frame after entry, and for the initial state, it is true at most once (LifecycleProperties.SteadyStatePassesOnce).

## Behaviour notes

- In StateInHand, the eight-second test reads TimeInState after an earlier switch in the same run has zeroed it. A throw after eight seconds therefore heads to StateFalling, not StateMenu.
- OnDestroy from an idle machine enters StateEnd twice. The End inside StateEnd makes a final pass that takes the stale forceNextChange, so StateEnd is entered again. That second entry calls End, which does nothing on an ended machine.
- With StateMachineWithExceptionCatching, the watchdog does not stop a runaway loop. Its exception reaches the same handler, so a handler that keeps answering with a failing state makes Update run forever.

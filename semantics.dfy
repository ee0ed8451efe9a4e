/** Reference semantics of the ChanibaL state machine runtime, on values.

    Every field of a `StateMachine` object is a field of the `Machine` datatype; every operation
    of the runtime is a function from the old machine (and its arguments) to a `Step`: the new
    machine and how the call ended. A C# exception leaves the fields as they were at the throw,
    so a `Raised` step carries the machine in that partial state.

    A state is a delegate that calls back into its machine. Here a state is an identifier, and
    what its body does on one run is given by a `Script`: from the state and the flags it can
    read when it starts, the ordered list of requests it makes of the machine. */
module Semantics {

  type StateId = nat
  type HandlerId = nat

  datatype Option<T> = None | Some(value: T)

  /** A state delegate as the source holds it: `None` is the null delegate. */
  type StateRef = Option<StateId>

  /** The exceptions that can leave a state run. */
  datatype Failure =
    | WatchdogTriggered            // thrown by Watchdog
    | NullState                    // invoking a null CurrentState
    | EmptyStack                   // Stack.Pop on an empty stack
    | NotPushed(expected: bool)    // AssertIsPushedState
    | Thrown(code: int)            // anything a state body throws itself

  /** How a call ended: normally, by an exception, or not at all (the same-frame
      transition loop did not settle within the fuel it was given). */
  datatype Outcome = Ok | Raised(failure: Failure) | Diverged

  datatype Warning =
    | SwitchOnEnded
    | SwitchFromOutside
    | ExternalSwitchFromInside
    | EndedButStillUpdating
    | StateExceptionCaught(failure: Failure)

  /** What a state body reads of its machine when it starts running. */
  datatype View = View(
    enter: bool, exit: bool, ended: bool, executing: bool,
    deltaTime: real, framesInState: int, timeInState: real,
    pushed: bool, depth: nat)

  /** The observable history: state runs, handler notifications and warnings, in order. */
  datatype Event =
    | Ran(state: StateId, view: View)
    | ExitFired(handler: HandlerId)
    | EndFired(handler: HandlerId)
    | Warned(warning: Warning)

  /** A call a state body makes on its machine while it runs. */
  datatype Request =
    | Switch(target: StateRef)                 // SwitchState
    | Push(inner: StateRef, ret: StateRef)     // PushState(state, returnState)
    | Pop                                      // PopState
    | AssertPushed(expected: bool)             // AssertIsPushedState
    | Throw(code: int)                         // the body throws
    | EndMachine                               // End

  type Script = (StateId, View) -> seq<Request>

  /** The exception handler of StateMachineWithExceptionCatching, when there is one. */
  datatype Catching = NoCatching | Catching(onException: (StateRef, Failure) -> StateRef)

  /** What stays fixed during one call: the machine's variant, the state bodies and the
      engine's frame number. */
  datatype Env = Env(catching: Catching, script: Script, frame: int)

  datatype Machine = Machine(
    current: StateRef,
    enter: bool,
    exit: bool,
    ended: bool,
    executing: bool,
    deltaTime: real,
    framesInState: int,
    timeInState: real,
    pushed: bool,
    next: StateRef,              // nextState
    forceNext: StateRef,         // forceNextChange
    ignoreEndUpdate: bool,
    stack: seq<StateRef>,        // the top of the stack is the last element
    exitHandlers: seq<HandlerId>,
    endHandlers: seq<HandlerId>,
    watchdogLimit: int,
    watchdogEnabled: bool,
    watchdogRuns: int,
    watchdogLastFrame: int,
    events: seq<Event>)

  datatype Step = Step(m: Machine, out: Outcome)

  /** A freshly constructed machine. */
  function Init(initState: StateRef): (r: Machine)
    ensures r.current == initState && r.enter && !r.exit && !r.ended && !r.pushed
    ensures r.framesInState == 0 && r.timeInState == 0.0 && r.stack == []
    ensures r.next.None? && r.forceNext.None? && !r.executing
    ensures r.watchdogEnabled && r.watchdogLimit == 100 && r.events == []
  {
    Machine(initState, true, false, false, false, 0.0, 0, 0.0, false, None, None, false, [],
            [], [], 100, true, 0, -1, [])
  }

  function ViewOf(m: Machine): View {
    View(m.enter, m.exit, m.ended, m.executing, m.deltaTime, m.framesInState, m.timeInState,
         m.pushed, |m.stack|)
  }

  /** The depth of nested sub-states is the number of return states on the stack. */
  function SubStateMachineDepth(m: Machine): (r: nat)
    ensures r == |m.stack|
  {
    |m.stack|
  }

  /** `TimeInStatePassed(t)` as a state body reads it during a run: the frame's DeltaTime
      carries TimeInState across `t`. */
  function TimeInStatePassed(v: View, t: real): (r: bool)
    ensures r ==> v.deltaTime > 0.0 && v.timeInState <= t
    ensures v.deltaTime <= 0.0 ==> !r
  {
    t >= v.timeInState && t < v.timeInState + v.deltaTime
  }

  function ExitEvents(hs: seq<HandlerId>): seq<Event> {
    seq(|hs|, i requires 0 <= i < |hs| => ExitFired(hs[i]))
  }

  function EndEvents(hs: seq<HandlerId>): seq<Event> {
    seq(|hs|, i requires 0 <= i < |hs| => EndFired(hs[i]))
  }

  function WarnIf(b: bool, w: Warning): seq<Event> {
    if b then [Warned(w)] else []
  }

  /** Subscribing to OnExitState and OnEndSM. */
  function AddExitHandler(m: Machine, h: HandlerId): (r: Machine)
    ensures r.exitHandlers == m.exitHandlers + [h]
    ensures r == m.(exitHandlers := r.exitHandlers)
  {
    m.(exitHandlers := m.exitHandlers + [h])
  }

  function AddEndHandler(m: Machine, h: HandlerId): (r: Machine)
    ensures r.endHandlers == m.endHandlers + [h]
    ensures r == m.(endHandlers := r.endHandlers)
  {
    m.(endHandlers := m.endHandlers + [h])
  }

  /** `_SwitchState`: the bookkeeping every transition request shares. */
  function SwitchCore(m: Machine, s: StateRef): (r: Machine)
    ensures r.next == s && r.exit && r.framesInState == 0 && r.timeInState == 0.0
    ensures r.exitHandlers == [] && m.events <= r.events
    ensures r.forceNext == (if m.executing then m.forceNext else s)
    ensures r == m.(next := r.next, forceNext := r.forceNext, exit := true, exitHandlers := [],
                    framesInState := 0, timeInState := 0.0, events := r.events)
  {
    m.(forceNext := if m.executing then m.forceNext else s,
       next := s,
       exit := true,
       exitHandlers := [],
       framesInState := 0,
       timeInState := 0.0,
       events := m.events + WarnIf(m.ended, SwitchOnEnded) + ExitEvents(m.exitHandlers))
  }

  function SwitchState(m: Machine, s: StateRef): (r: Machine)
    ensures r.next == s && r.exit && !r.pushed && r.current == m.current && r.stack == m.stack
    ensures !m.executing ==> r.forceNext == s
  {
    SwitchCore(m.(pushed := false,
                  events := m.events + WarnIf(!m.executing, SwitchFromOutside)), s)
  }

  function SwitchStateExternalDelayed(m: Machine, s: StateRef): (r: Machine)
    ensures r.next == s && r.exit && !r.pushed && r.current == m.current && r.stack == m.stack
    ensures !m.executing ==> r.forceNext == s
  {
    SwitchCore(m.(pushed := false,
                  events := m.events + WarnIf(m.executing, ExternalSwitchFromInside)), s)
  }

  /** The bookkeeping of SwitchStateWithoutExitStateDoNotUseUnlessDesperate. */
  function ForceState(m: Machine, s: StateRef): (r: Machine)
    ensures r.current.None? && r.next == s && r.enter && r.exit
    ensures r.framesInState == 0 && r.timeInState == 0.0 && r.stack == m.stack
    ensures m.events <= r.events
  {
    SwitchCore(m.(framesInState := 0, timeInState := 0.0, exit := false, enter := true,
                  forceNext := None, next := None, current := None), s)
  }

  function PushState(m: Machine, inner: StateRef, ret: StateRef): (r: Machine)
    ensures |r.stack| == |m.stack| + 1 && r.stack[..|m.stack|] == m.stack
    ensures r.stack[|m.stack|] == (if ret.Some? then ret else m.current)
    ensures r.pushed && r.next == inner && r.exit
  {
    SwitchCore(m.(stack := m.stack + [if ret.Some? then ret else m.current], pushed := true),
               inner)
  }

  function PopState(m: Machine): (r: Step)
    ensures r.out.Raised? <==> |m.stack| == 0
    ensures r.out.Raised? ==> r == Step(m, Raised(EmptyStack))
    ensures r.out.Ok? ==> |r.m.stack| == |m.stack| - 1 && r.m.stack == m.stack[..|r.m.stack|]
                          && r.m.next == m.stack[|r.m.stack|] && r.m.pushed == m.pushed && r.m.exit
  {
    if |m.stack| == 0 then Step(m, Raised(EmptyStack))
    else Step(SwitchCore(m.(stack := m.stack[..|m.stack| - 1]), m.stack[|m.stack| - 1]), Ok)
  }

  function AssertIsPushedState(m: Machine, expected: bool): (r: Outcome)
    ensures r.Raised? <==> m.pushed != expected
    ensures r != Diverged && (r.Raised? ==> r.failure == NotPushed(expected))
  {
    if m.pushed != expected then Raised(NotPushed(expected)) else Ok
  }

  function Watchdog(m: Machine, frame: int): (r: Step)
    ensures r.m == m.(watchdogRuns := r.m.watchdogRuns, watchdogLastFrame := r.m.watchdogLastFrame)
    ensures r.out == Ok || r.out == Raised(WatchdogTriggered)
    ensures !m.watchdogEnabled ==> r == Step(m, Ok)
    ensures m.watchdogEnabled ==> r.m.watchdogLastFrame == frame
    ensures m.watchdogLimit <= 0 ==> r.out == Ok
    ensures m.watchdogEnabled && m.watchdogLimit > 0 ==>
              r.m.watchdogRuns == (if m.watchdogLastFrame == frame then m.watchdogRuns else 0) + 1
              && (r.out.Raised? <==> r.m.watchdogRuns > m.watchdogLimit)
  {
    if !m.watchdogEnabled then Step(m, Ok)
    else
      var runs := if m.watchdogLastFrame == frame then m.watchdogRuns else 0;
      if m.watchdogLimit <= 0 then Step(m.(watchdogLastFrame := frame, watchdogRuns := runs), Ok)
      else
        Step(m.(watchdogLastFrame := frame, watchdogRuns := runs + 1),
             if runs + 1 > m.watchdogLimit then Raised(WatchdogTriggered) else Ok)
  }

  function Rank(m: Machine): nat {
    if m.ended then 0 else 1
  }

  /** `Update(deltaTime)`. */
  function Update(m: Machine, dt: real, env: Env, fuel: nat): (r: Step)
    ensures m.ended ==> r.m.ended
    ensures m.events <= r.m.events
    ensures r.out.Ok? ==> !r.m.executing && !r.m.enter && r.m.next.None? && r.m.forceNext.None?
    decreases Rank(m), fuel, 5
  {
    var m1 := m.(executing := true, next := m.forceNext, deltaTime := dt);
    var r1 := RunState(m1, env, fuel);
    if !r1.out.Ok? then r1
    else
      var m2 := r1.m.(enter := false,
                      events := r1.m.events
                                + WarnIf(r1.m.ended && !r1.m.ignoreEndUpdate, EndedButStillUpdating));
      Loop(m2, dt, env, fuel)
  }

  /** The `while (nextState != null)` loop of Update and what follows it; `dt` is the local
      deltaTime, which the first applied transition zeroes. */
  function Loop(m: Machine, dt: real, env: Env, fuel: nat): (r: Step)
    ensures m.ended ==> r.m.ended
    ensures m.events <= r.m.events
    ensures r.out.Ok? ==> !r.m.executing && r.m.next.None? && r.m.forceNext.None?
    ensures r.out.Ok? && !m.enter ==> !r.m.enter
    decreases Rank(m), fuel, 4
  {
    if m.next.None? then
      Step(m.(executing := false, forceNext := None, framesInState := m.framesInState + 1,
              timeInState := m.timeInState + dt), Ok)
    else if fuel == 0 then Step(m, Diverged)
    else
      var m1 := m.(current := m.next, next := None, enter := true, exit := false,
                   timeInState := 0.0);
      var r1 := RunState(m1, env, fuel - 1);
      if !r1.out.Ok? then r1
      else Loop(r1.m.(enter := false), 0.0, env, fuel - 1)
  }

  /** `RunState`, with the exception handler of StateMachineWithExceptionCatching when the
      machine has one. */
  function RunState(m: Machine, env: Env, fuel: nat): (r: Step)
    ensures m.ended ==> r.m.ended
    ensures m.events <= r.m.events
    decreases Rank(m), fuel, 3
  {
    var r1 := BaseRunState(m, env, fuel);
    match env.catching
    case NoCatching => r1
    case Catching(onException) =>
      if r1.out.Raised? then
        var m1 := r1.m.(events := r1.m.events + [Warned(StateExceptionCaught(r1.out.failure))]);
        var replacement := onException(m1.current, r1.out.failure);
        if replacement.Some? then Step(ForceState(m1, replacement), Ok)
        else Step(m1, r1.out)
      else r1
  }

  /** The base `RunState`: the watchdog, then the current state's body. */
  function BaseRunState(m: Machine, env: Env, fuel: nat): (r: Step)
    ensures m.ended ==> r.m.ended
    ensures m.events <= r.m.events
    decreases Rank(m), fuel, 2
  {
    var w := Watchdog(m, env.frame);
    if !w.out.Ok? then w
    else
      match w.m.current
      case None => Step(w.m, Raised(NullState))
      case Some(s) =>
        var v := ViewOf(w.m);
        Exec(w.m.(events := w.m.events + [Ran(s, v)]), env.script(s, v), env, fuel)
  }

  /** The requests of one run, in order, until one of them throws. */
  function Exec(m: Machine, reqs: seq<Request>, env: Env, fuel: nat): (r: Step)
    ensures m.ended ==> r.m.ended
    ensures m.events <= r.m.events
    decreases Rank(m), fuel, 1, |reqs|
  {
    if reqs == [] then Step(m, Ok)
    else
      var r1 := Perform(m, reqs[0], env, fuel);
      if r1.out.Ok? then Exec(r1.m, reqs[1..], env, fuel) else r1
  }

  /** One call a running state makes on its machine. */
  function Perform(m: Machine, req: Request, env: Env, fuel: nat): (r: Step)
    ensures m.ended ==> r.m.ended
    ensures m.events <= r.m.events
    decreases Rank(m), fuel, 1, 0
  {
    match req
    case Switch(s) => Step(SwitchState(m, s), Ok)
    case Push(inner, ret) => Step(PushState(m, inner, ret), Ok)
    case Pop => PopState(m)
    case AssertPushed(e) => Step(m, AssertIsPushedState(m, e))
    case Throw(c) => Step(m, Raised(Thrown(c)))
    case EndMachine => End(m, env, fuel)
  }

  /** What End does before its final pass: the machine is marked ended, the OnExitState and
      OnEndSM subscribers are notified (OnExitState is not cleared) and EnterState is lowered. */
  function Ending(m: Machine): (r: Machine)
    ensures r.ended && r.ignoreEndUpdate && !r.enter
    ensures r.events == m.events + ExitEvents(m.exitHandlers) + EndEvents(m.endHandlers)
  {
    m.(ended := true,
       events := m.events + ExitEvents(m.exitHandlers) + EndEvents(m.endHandlers),
       ignoreEndUpdate := true,
       enter := false)
  }

  /** `End()`: from a machine that has not ended, a final pass through Update(0). Calling it
      on an ended machine changes nothing. */
  function End(m: Machine, env: Env, fuel: nat): (r: Step)
    ensures r.m.ended
    ensures m.events <= r.m.events
    ensures m.ended ==> r == Step(m, Ok)
    decreases Rank(m), fuel, 0
  {
    if m.ended then Step(m, Ok)
    else
      var u := Update(Ending(m), 0.0, env, fuel);
      if u.out.Ok? then Step(u.m.(ignoreEndUpdate := false), Ok) else u
  }

  function SwitchStateExternalImmidiate(m: Machine, s: StateRef, env: Env, fuel: nat): (r: Step)
    ensures m.events <= r.m.events
    ensures r.out.Ok? ==> !r.m.executing && !r.m.enter && r.m.next.None? && r.m.forceNext.None?
  {
    Update(SwitchStateExternalDelayed(m, s), 0.0, env, fuel)
  }

  function SwitchStateWithoutExitState(m: Machine, s: StateRef, immidiate: bool, env: Env,
                                       fuel: nat): (r: Step)
    ensures !immidiate ==> r.out.Ok? && r.m.current.None? && r.m.next == s && r.m.enter
    ensures immidiate && r.out.Ok? ==> !r.m.executing && r.m.next.None? && r.m.forceNext.None?
  {
    if immidiate then Update(ForceState(m, s), 0.0, env, fuel) else Step(ForceState(m, s), Ok)
  }
}

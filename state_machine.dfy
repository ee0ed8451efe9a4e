/** The `StateMachine` class of StateMachine.cs and its exception-catching variant, as an
    object whose methods update its fields in place. Each method is proved to leave the object
    in the state the reference semantics of module `Semantics` gives, so every property proved
    there holds of the object.

    The fields of the C# class are kept, grouped as the source's regions group them: the
    status properties, the timing properties, the pending-transition slots, the two events,
    the watchdog, and the sub-state stack. */
module StateMachineRuntime {
  import opened Semantics

  /** The static `maxId` counter the constructor draws machine ids from. */
  class IdRegistry {
    var maxId: int
    ghost var issued: set<int>

    ghost predicate Valid()
      reads this
    {
      forall i :: i in issued ==> i <= maxId
    }

    constructor ()
      ensures Valid() && maxId == 0 && issued == {}
    {
      maxId := 0;
      issued := {};
    }
  }

  /** EnterState, ExitState, Ended, CurrentlyExecuting, IsPushedState and ignoreEndUpdate. */
  datatype Flags = Flags(enterState: bool, exitState: bool, ended: bool,
                         currentlyExecuting: bool, isPushedState: bool, ignoreEndUpdate: bool)

  /** DeltaTime, FramesInState and TimeInState. */
  datatype Timing = Timing(deltaTime: real, framesInState: int, timeInState: real)

  /** nextState and forceNextChange. */
  datatype Pending = Pending(nextState: StateRef, forceNextChange: StateRef)

  /** The subscribers of the OnExitState and OnEndSM events, in subscription order. */
  datatype Handlers = Handlers(onExitState: seq<HandlerId>, onEndSM: seq<HandlerId>)

  /** watchdogLimit, watchdogEnabled, watchdogRunsThisFrame and watchdogLastFrame. */
  datatype WatchdogState = WatchdogState(limit: int, enabled: bool, runsThisFrame: int,
                                         lastFrame: int)

  class StateMachine {
    const id: int
    /** NoCatching for a plain StateMachine; the handler for StateMachineWithExceptionCatching. */
    const catching: Catching

    var currentState: StateRef
    var flags: Flags
    var timing: Timing
    var pending: Pending
    var stack: seq<StateRef>       // the top of the stack is the last element
    var handlers: Handlers
    var watchdog: WatchdogState
    /** What the object has done so far that an observer can see: state runs, handler
        notifications and warnings. */
    var events: seq<Event>

    function Snapshot(): Machine
      reads this
    {
      Machine(currentState, flags.enterState, flags.exitState, flags.ended,
              flags.currentlyExecuting, timing.deltaTime, timing.framesInState,
              timing.timeInState, flags.isPushedState, pending.nextState,
              pending.forceNextChange, flags.ignoreEndUpdate, stack, handlers.onExitState,
              handlers.onEndSM, watchdog.limit, watchdog.enabled, watchdog.runsThisFrame,
              watchdog.lastFrame, events)
    }

    function Env(script: Script, frame: int): Env
      reads this
    {
      Semantics.Env(catching, script, frame)
    }

    constructor (initState: StateRef, registry: IdRegistry)
      requires registry.Valid()
      modifies registry
      ensures Snapshot() == Init(initState) && catching == NoCatching
      ensures forall i :: i in old(registry.issued) ==> i < id
      ensures registry.Valid() && registry.maxId == id
      ensures registry.issued == old(registry.issued) + {id}
    {
      id := registry.maxId + 1;
      catching := NoCatching;
      currentState := initState;
      flags := Flags(true, false, false, false, false, false);
      timing := Timing(0.0, 0, 0.0);
      pending := Pending(None, None);
      stack := [];
      handlers := Handlers([], []);
      watchdog := WatchdogState(100, true, 0, -1);
      events := [];
      new;
      registry.maxId := id;
      registry.issued := registry.issued + {id};
    }

    /** The constructor of StateMachineWithExceptionCatching. */
    constructor WithExceptionCatching(initState: StateRef,
                                      onException: (StateRef, Failure) -> StateRef,
                                      registry: IdRegistry)
      requires registry.Valid()
      modifies registry
      ensures Snapshot() == Init(initState) && catching == Catching(onException)
      ensures forall i :: i in old(registry.issued) ==> i < id
      ensures registry.Valid() && registry.maxId == id
      ensures registry.issued == old(registry.issued) + {id}
    {
      id := registry.maxId + 1;
      catching := Catching(onException);
      currentState := initState;
      flags := Flags(true, false, false, false, false, false);
      timing := Timing(0.0, 0, 0.0);
      pending := Pending(None, None);
      stack := [];
      handlers := Handlers([], []);
      watchdog := WatchdogState(100, true, 0, -1);
      events := [];
      new;
      registry.maxId := id;
      registry.issued := registry.issued + {id};
    }

    function SubStateMachineDepth(): (r: nat)
      reads this
      ensures r == Semantics.SubStateMachineDepth(Snapshot())
    {
      |stack|
    }

    function TimeInStatePassed(t: real): (r: bool)
      reads this
      ensures r <==> timing.timeInState <= t < timing.timeInState + timing.deltaTime
    {
      Semantics.TimeInStatePassed(ViewOf(Snapshot()), t)
    }

    /** `OnExitState += h` */
    method AddExitHandler(h: HandlerId)
      modifies this
      ensures Snapshot() == Semantics.AddExitHandler(old(Snapshot()), h)
    {
      handlers := handlers.(onExitState := handlers.onExitState + [h]);
    }

    /** `OnEndSM += h` */
    method AddEndHandler(h: HandlerId)
      modifies this
      ensures Snapshot() == Semantics.AddEndHandler(old(Snapshot()), h)
    {
      handlers := handlers.(onEndSM := handlers.onEndSM + [h]);
    }

    /** `_SwitchState` */
    method SwitchCore(s: StateRef)
      modifies this
      ensures Snapshot() == Semantics.SwitchCore(old(Snapshot()), s)
    {
      events := events + WarnIf(flags.ended, SwitchOnEnded) + ExitEvents(handlers.onExitState);
      pending := Pending(s, if flags.currentlyExecuting then pending.forceNextChange else s);
      flags := flags.(exitState := true);
      handlers := handlers.(onExitState := []);
      timing := timing.(framesInState := 0, timeInState := 0.0);
    }

    method SwitchState(s: StateRef)
      modifies this
      ensures Snapshot() == Semantics.SwitchState(old(Snapshot()), s)
    {
      events := events + WarnIf(!flags.currentlyExecuting, SwitchFromOutside);
      flags := flags.(isPushedState := false);
      SwitchCore(s);
    }

    method SwitchStateExternalImmidiate(s: StateRef, script: Script, frame: int, fuel: nat)
      returns (o: Outcome)
      modifies this
      ensures var r := Semantics.SwitchStateExternalImmidiate(old(Snapshot()), s,
                                                              Env(script, frame), fuel);
              Snapshot() == r.m && o == r.out
    {
      SwitchStateExternalDelayed(s);
      o := Update(0.0, script, frame, fuel);
    }

    method SwitchStateExternalDelayed(s: StateRef)
      modifies this
      ensures Snapshot() == Semantics.SwitchStateExternalDelayed(old(Snapshot()), s)
    {
      events := events + WarnIf(flags.currentlyExecuting, ExternalSwitchFromInside);
      flags := flags.(isPushedState := false);
      SwitchCore(s);
    }

    method SwitchStateWithoutExitStateDoNotUseUnlessDesperate(s: StateRef, immidiate: bool,
                                                              script: Script, frame: int,
                                                              fuel: nat)
      returns (o: Outcome)
      modifies this
      ensures var r := Semantics.SwitchStateWithoutExitState(old(Snapshot()), s, immidiate,
                                                             Env(script, frame), fuel);
              Snapshot() == r.m && o == r.out
      decreases Rank(Snapshot()), fuel, if immidiate then 6 else 0
    {
      ResetForForce();
      SwitchCore(s);
      o := Ok;
      if immidiate {
        o := Update(0.0, script, frame, fuel);
      }
    }

    /** The field resets SwitchStateWithoutExitStateDoNotUseUnlessDesperate makes before it
        switches. */
    method ResetForForce()
      modifies this
      ensures Snapshot() == old(Snapshot()).(framesInState := 0, timeInState := 0.0,
                exit := false, enter := true, forceNext := None, next := None, current := None)
    {
      timing := timing.(framesInState := 0, timeInState := 0.0);
      flags := flags.(exitState := false, enterState := true);
      pending := Pending(None, None);
      currentState := None;
    }

    method End(script: Script, frame: int, fuel: nat) returns (o: Outcome)
      modifies this
      ensures var r := Semantics.End(old(Snapshot()), Env(script, frame), fuel);
              Snapshot() == r.m && o == r.out
      decreases Rank(Snapshot()), fuel, 0
    {
      o := Ok;
      if !flags.ended {
        MarkEnded();
        o := Update(0.0, script, frame, fuel);
        if !o.Ok? {
          return;
        }
        flags := flags.(ignoreEndUpdate := false);
      }
    }

    /** What End does before its final Update: it marks the machine ended and notifies the
        OnExitState and OnEndSM subscribers. */
    method MarkEnded()
      modifies this
      ensures Snapshot() == Ending(old(Snapshot()))
    {
      flags := flags.(ended := true, ignoreEndUpdate := true, enterState := false);
      events := events + ExitEvents(handlers.onExitState) + EndEvents(handlers.onEndSM);
    }

    method Update(dt: real, script: Script, frame: int, fuel: nat) returns (o: Outcome)
      modifies this
      ensures var r := Semantics.Update(old(Snapshot()), dt, Env(script, frame), fuel);
              Snapshot() == r.m && o == r.out
      decreases Rank(Snapshot()), fuel, 5
    {
      Begin(dt);
      o := RunState(script, frame, fuel);
      if !o.Ok? {
        return;
      }
      AfterFirstRun();
      o := Loop(dt, script, frame, fuel);
    }

    /** What Update does before it runs the current state. */
    method Begin(dt: real)
      modifies this
      ensures Snapshot() == old(Snapshot()).(executing := true, next := old(pending.forceNextChange),
                                             deltaTime := dt)
    {
      flags := flags.(currentlyExecuting := true);
      pending := pending.(nextState := pending.forceNextChange);
      timing := timing.(deltaTime := dt);
    }

    /** What Update does after the first run of the current state returned normally. */
    method AfterFirstRun()
      modifies this
      ensures Snapshot() == old(Snapshot()).(enter := false, events := old(events)
                + WarnIf(old(flags.ended) && !old(flags.ignoreEndUpdate), EndedButStillUpdating))
    {
      flags := flags.(enterState := false);
      events := events + WarnIf(flags.ended && !flags.ignoreEndUpdate, EndedButStillUpdating);
    }

    /** The `while (nextState != null)` loop of Update and the bookkeeping after it. */
    method Loop(dt: real, script: Script, frame: int, fuel: nat) returns (o: Outcome)
      modifies this
      ensures var r := Semantics.Loop(old(Snapshot()), dt, Env(script, frame), fuel);
              Snapshot() == r.m && o == r.out
      decreases Rank(Snapshot()), fuel, 4
    {
      var localDelta := dt;
      var left: nat := fuel;
      while pending.nextState.Some?
        invariant left <= fuel
        invariant old(flags.ended) ==> flags.ended
        invariant Semantics.Loop(Snapshot(), localDelta, Env(script, frame), left)
                  == Semantics.Loop(old(Snapshot()), dt, Env(script, frame), fuel)
        decreases left
      {
        if left == 0 {
          return Diverged;
        }
        EnterNext();
        localDelta := 0.0;
        left := left - 1;
        o := RunState(script, frame, left);
        if !o.Ok? {
          return;
        }
        flags := flags.(enterState := false);
      }
      Finish(localDelta);
      o := Ok;
    }

    /** What Update does once no transition is pending. */
    method Finish(localDelta: real)
      modifies this
      ensures Snapshot() == old(Snapshot()).(executing := false, forceNext := None,
                framesInState := old(timing.framesInState) + 1,
                timeInState := old(timing.timeInState) + localDelta)
    {
      flags := flags.(currentlyExecuting := false);
      pending := pending.(forceNextChange := None);
      timing := timing.(framesInState := timing.framesInState + 1,
                        timeInState := timing.timeInState + localDelta);
    }

    /** The step of the loop that makes the pending state current. */
    method EnterNext()
      modifies this
      ensures Snapshot() == old(Snapshot()).(current := old(pending.nextState), next := None,
                                             enter := true, exit := false, timeInState := 0.0)
    {
      currentState := pending.nextState;
      pending := pending.(nextState := None);
      flags := flags.(enterState := true, exitState := false);
      timing := timing.(timeInState := 0.0);
    }

    method RunState(script: Script, frame: int, fuel: nat) returns (o: Outcome)
      modifies this
      ensures var r := Semantics.RunState(old(Snapshot()), Env(script, frame), fuel);
              Snapshot() == r.m && o == r.out
      decreases Rank(Snapshot()), fuel, 3
    {
      o := BaseRunState(script, frame, fuel);
      if catching.Catching? && o.Raised? {
        events := events + [Warned(StateExceptionCaught(o.failure))];
        var replacement := catching.onException(currentState, o.failure);
        if replacement.Some? {
          o := SwitchStateWithoutExitStateDoNotUseUnlessDesperate(replacement, false, script,
                                                                  frame, fuel);
        }
      }
    }

    method BaseRunState(script: Script, frame: int, fuel: nat) returns (o: Outcome)
      modifies this
      ensures var r := Semantics.BaseRunState(old(Snapshot()), Env(script, frame), fuel);
              Snapshot() == r.m && o == r.out
      decreases Rank(Snapshot()), fuel, 2
    {
      o := Watchdog(frame);
      if !o.Ok? {
        return;
      }
      match currentState {
        case None =>
          o := Raised(NullState);
        case Some(s) =>
          var v := ViewOf(Snapshot());
          events := events + [Ran(s, v)];
          o := Exec(script(s, v), script, frame, fuel);
      }
    }

    /** Carries out the requests of one run of a state body, in order. */
    method Exec(reqs: seq<Request>, script: Script, frame: int, fuel: nat) returns (o: Outcome)
      modifies this
      ensures var r := Semantics.Exec(old(Snapshot()), reqs, Env(script, frame), fuel);
              Snapshot() == r.m && o == r.out
      decreases Rank(Snapshot()), fuel, 1, |reqs|
    {
      var i := 0;
      o := Ok;
      while i < |reqs|
        invariant 0 <= i <= |reqs|
        invariant old(flags.ended) ==> flags.ended
        invariant Semantics.Exec(Snapshot(), reqs[i..], Env(script, frame), fuel)
                  == Semantics.Exec(old(Snapshot()), reqs, Env(script, frame), fuel)
        invariant o == Ok
        decreases |reqs| - i
      {
        assert reqs[i..][0] == reqs[i] && reqs[i..][1..] == reqs[i + 1..];
        o := Perform(reqs[i], script, frame, fuel);
        if !o.Ok? {
          return;
        }
        i := i + 1;
      }
    }

    /** One call a running state makes on its machine. */
    method Perform(req: Request, script: Script, frame: int, fuel: nat) returns (o: Outcome)
      modifies this
      ensures var r := Semantics.Perform(old(Snapshot()), req, Env(script, frame), fuel);
              Snapshot() == r.m && o == r.out
      decreases Rank(Snapshot()), fuel, 1, 0
    {
      match req {
        case Switch(s) =>
          SwitchState(s);
          o := Ok;
        case Push(inner, ret) =>
          PushState(inner, ret);
          o := Ok;
        case Pop =>
          o := PopState();
        case AssertPushed(e) =>
          o := AssertIsPushedState(e);
        case Throw(c) =>
          o := Raised(Thrown(c));
        case EndMachine =>
          o := End(script, frame, fuel);
      }
    }

    method Watchdog(frame: int) returns (o: Outcome)
      modifies this
      ensures var r := Semantics.Watchdog(old(Snapshot()), frame); Snapshot() == r.m && o == r.out
    {
      o := Ok;
      if !watchdog.enabled {
        return;
      }
      if watchdog.lastFrame != frame {
        watchdog := watchdog.(lastFrame := frame, runsThisFrame := 0);
      }
      if watchdog.limit > 0 {
        watchdog := watchdog.(runsThisFrame := watchdog.runsThisFrame + 1);
        if watchdog.runsThisFrame > watchdog.limit {
          o := Raised(WatchdogTriggered);
        }
      }
    }

    method AssertIsPushedState(expected: bool) returns (o: Outcome)
      ensures o.Raised? <==> flags.isPushedState != expected
      ensures o.Raised? ==> o.failure == NotPushed(expected)
      ensures o == Semantics.AssertIsPushedState(Snapshot(), expected)
    {
      if flags.isPushedState != expected {
        o := Raised(NotPushed(expected));
      } else {
        o := Ok;
      }
    }

    method PushState(inner: StateRef, ret: StateRef)
      modifies this
      ensures Snapshot() == Semantics.PushState(old(Snapshot()), inner, ret)
    {
      stack := stack + [if ret.Some? then ret else currentState];
      flags := flags.(isPushedState := true);
      SwitchCore(inner);
    }

    method PopState() returns (o: Outcome)
      modifies this
      ensures var r := Semantics.PopState(old(Snapshot())); Snapshot() == r.m && o == r.out
    {
      if |stack| == 0 {
        return Raised(EmptyStack);
      }
      var top := stack[|stack| - 1];
      stack := stack[..|stack| - 1];
      SwitchCore(top);
      o := Ok;
    }
  }
}

/** StateMachineMonoBehaviour: the engine component that owns one machine with exception
    catching, drives it once per frame and ends it when the component is destroyed.

    The component's own states are StateInit, which each game supplies, and StateEnd, whose
    body calls End on its enter pass. A game's states are given as a `Script`; the host adds
    StateEnd to it. */
module StateMachineHost {
  import opened Semantics
  import opened StateMachineRuntime
  import opened MachineProperties
  import opened LifecycleProperties

  /** The default StateException: it never names a replacement state, so every failure of a
      state run propagates out of the machine. */
  function StateException(lastState: StateRef, failure: Failure): (r: StateRef)
    ensures r.None?
  {
    None
  }

  /** What StateEnd asks of the machine on one run. */
  function StateEndRequests(v: View): (r: seq<Request>)
    ensures r == [EndMachine] <==> v.enter
    ensures !v.enter ==> r == []
  {
    if v.enter then [EndMachine] else []
  }

  /** The state bodies of a component: StateEnd, and the game's states `sub` for the others. */
  function HostScript(sub: Script, endState: StateId): (r: Script)
    ensures forall v: View :: r(endState, v) == StateEndRequests(v)
    ensures forall s: StateId, v: View :: s != endState ==> r(s, v) == sub(s, v)
  {
    (s: StateId, v: View) => if s == endState then StateEndRequests(v) else sub(s, v)
  }

  function HostEnv(sub: Script, endState: StateId, frame: int): Env {
    Env(Catching(StateException), HostScript(sub, endState), frame)
  }

  /** What OnDestroy does to the machine: nothing if StateEnd is already the current state;
      otherwise a switch to StateEnd, with SwitchState from inside a state run and with
      SwitchStateExternalImmidiate from outside. */
  function Destroy(m: Machine, endState: StateId, env: Env, fuel: nat): (r: Step)
    ensures m.current == Some(endState) ==> r == Step(m, Ok)
    ensures m.current != Some(endState) && m.executing ==>
              r.out.Ok? && r.m.next == Some(endState) && r.m.exit && r.m.current == m.current
    ensures m.current != Some(endState) && !m.executing ==>
              r == Update(SwitchStateExternalDelayed(m, Some(endState)), 0.0, env, fuel)
  {
    if m.current == Some(endState) then Step(m, Ok)
    else if m.executing then Step(SwitchState(m, Some(endState)), Ok)
    else SwitchStateExternalImmidiate(m, Some(endState), env, fuel)
  }

  class StateMachineMonoBehaviour {
    var sm: StateMachine?
    const initState: StateId
    const endState: StateId

    constructor (initState: StateId, endState: StateId)
      ensures sm == null && this.initState == initState && this.endState == endState
    {
      sm := null;
      this.initState := initState;
      this.endState := endState;
    }

    /** `Start`: the machine begins in StateInit and catches exceptions with StateException. */
    method Start(registry: IdRegistry)
      requires registry.Valid()
      modifies this, registry
      ensures sm != null && fresh(sm)
      ensures sm.Snapshot() == Init(Some(initState)) && sm.catching == Catching(StateException)
      ensures registry.Valid()
    {
      sm := new StateMachine.WithExceptionCatching(Some(initState), StateException, registry);
    }

    /** `Update`: one frame of the machine, with the frame's delta time. The engine calls
        Start before the first Update. */
    method Update(sub: Script, dt: real, frame: int, fuel: nat) returns (o: Outcome)
      requires sm != null && sm.catching == Catching(StateException)
      modifies sm
      ensures var r := Semantics.Update(old(sm.Snapshot()), dt, HostEnv(sub, endState, frame), fuel);
              sm.Snapshot() == r.m && o == r.out
    {
      o := sm.Update(dt, HostScript(sub, endState), frame, fuel);
    }

    /** `OnDestroy`: nothing happens when there is no machine yet. */
    method OnDestroy(sub: Script, frame: int, fuel: nat) returns (o: Outcome)
      requires sm != null ==> sm.catching == Catching(StateException)
      modifies sm
      ensures sm == null ==> o == Ok
      ensures sm != null ==>
                var r := Destroy(old(sm.Snapshot()), endState, HostEnv(sub, endState, frame), fuel);
                sm.Snapshot() == r.m && o == r.out
    {
      o := Ok;
      if sm != null {
        if sm.currentState != Some(endState) {
          if sm.flags.currentlyExecuting {
            sm.SwitchState(Some(endState));
          } else {
            o := sm.SwitchStateExternalImmidiate(Some(endState), HostScript(sub, endState),
                                                 frame, fuel);
          }
        }
      }
    }

    /** `OnApplicationQuit` does what OnDestroy does. */
    method OnApplicationQuit(sub: Script, frame: int, fuel: nat) returns (o: Outcome)
      requires sm != null ==> sm.catching == Catching(StateException)
      modifies sm
      ensures sm == null ==> o == Ok
      ensures sm != null ==>
                var r := Destroy(old(sm.Snapshot()), endState, HostEnv(sub, endState, frame), fuel);
                sm.Snapshot() == r.m && o == r.out
    {
      o := OnDestroy(sub, frame, fuel);
    }
  }

  /** With the default StateException, a failed state run ends the same way as without an
      exception handler: the failure propagates unchanged (after being logged). */
  lemma DefaultHandlerPropagates(m: Machine, sub: Script, endState: StateId, frame: int,
                                 fuel: nat)
    ensures var env := HostEnv(sub, endState, frame);
            var b := BaseRunState(m, env, fuel);
            var r := RunState(m, env, fuel);
            r.out == b.out && r.m.current == b.m.current && r.m.next == b.m.next
            && r.m.events == b.m.events
                            + (if b.out.Raised? then [Warned(StateExceptionCaught(b.out.failure))] else [])
  {
  }

  // ---------------------------------------------------------------------------------------
  // OnDestroy, from outside any state run

  lemma HostScriptAt(sub: Script, endState: StateId, frame: int, s: StateId, v: View)
    ensures HostEnv(sub, endState, frame).script(s, v)
            == if s == endState then StateEndRequests(v) else sub(s, v)
  {
  }

  lemma PrefixKeeps<T>(a: seq<T>, b: seq<T>, x: T)
    requires a <= b && x in a
    ensures x in b
  {
    var i :| 0 <= i < |a| && a[i] == x;
    assert b[i] == x;
  }

  /** End notifies every OnEndSM subscriber. */
  lemma EndingNotifies(x: Machine)
    ensures forall h :: h in x.endHandlers ==> EndFired(h) in Ending(x).events
  {
    forall h | h in x.endHandlers
      ensures EndFired(h) in Ending(x).events
    {
      var i :| 0 <= i < |x.endHandlers| && x.endHandlers[i] == h;
      assert Ending(x).events[|x.events| + |x.exitHandlers| + i] == EndFired(h);
    }
  }

  /** The transition loop entering StateEnd on a machine that has already ended: StateEnd's
      End finds the machine ended and does nothing, and the loop settles in StateEnd. */
  lemma EndedEntry(g: Machine, sub: Script, endState: StateId, frame: int, fuel: nat)
    requires g.next == Some(endState) && g.ended && Headroom(g, frame, 1) && fuel > 0
    ensures var r := Loop(g, 0.0, HostEnv(sub, endState, frame), fuel);
            r.out.Ok? && r.m.ended && r.m.current == Some(endState) && !r.m.executing
            && r.m.next.None? && r.m.forceNext.None?
  {
    var env := HostEnv(sub, endState, frame);
    var m1 := Entered(g);
    HeadroomUsed(m1, frame, 0);
    var w1 := Watchdog(m1, frame);
    var z := w1.m.(events := w1.m.events + [Ran(endState, ViewOf(m1))]);
    assert ViewOf(w1.m) == ViewOf(m1);
    HostScriptAt(sub, endState, frame, endState, ViewOf(m1));
    assert Exec(z, [EndMachine], env, fuel - 1) == Exec(z, [], env, fuel - 1);
    assert RunState(m1, env, fuel - 1) == Step(z, Ok);
    assert Loop(g, 0.0, env, fuel) == Loop(z.(enter := false), 0.0, env, fuel - 1);
  }

  /** The pass through Update that End makes from StateEnd's enter pass. Update reads
      forceNextChange, still StateEnd from the outer external switch, so StateEnd runs once
      with EnterState false and is then entered a second time; that run's End finds the
      machine ended and does nothing. */
  lemma StaleEndPass(x: Machine, sub: Script, endState: StateId, frame: int, fuel: nat)
    requires x.current == Some(endState) && x.forceNext == Some(endState) && !x.ended
    requires Headroom(x, frame, 2) && fuel > 0
    ensures var r := End(x, HostEnv(sub, endState, frame), fuel);
            r.out.Ok? && r.m.ended && r.m.current == Some(endState) && r.m.next.None?
            && r.m.forceNext.None? && !r.m.executing && !r.m.ignoreEndUpdate
            && forall h :: h in x.endHandlers ==> EndFired(h) in r.m.events
  {
    var env := HostEnv(sub, endState, frame);
    var e := Ending(x);
    var m0 := Started(e, 0.0);
    HeadroomUsed(m0, frame, 1);
    HostScriptAt(sub, endState, frame, endState, ViewOf(m0));
    QuietRun(m0, env, fuel);
    var w0 := Watchdog(m0, frame);
    var f0 := w0.m.(events := w0.m.events + [Ran(endState, ViewOf(m0))]);
    var g := f0.(enter := false, events := f0.events + StillUpdating(e));
    assert Update(e, 0.0, env, fuel) == Loop(g, 0.0, env, fuel);
    EndedEntry(g, sub, endState, frame, fuel);
    EndingNotifies(x);
    var r := End(x, env, fuel);
    forall h | h in x.endHandlers
      ensures EndFired(h) in r.m.events
    {
      PrefixKeeps(e.events, r.m.events, EndFired(h));
    }
  }

  /** StateEnd's enter pass, inside the Update of an external switch to it. */
  lemma EndEnterPass(m1: Machine, sub: Script, endState: StateId, frame: int, fuel: nat)
    requires m1.current == Some(endState) && m1.enter && m1.forceNext == Some(endState)
    requires !m1.ended && Headroom(m1, frame, 3) && fuel > 0
    ensures var r := RunState(m1, HostEnv(sub, endState, frame), fuel);
            r.out.Ok? && r.m.ended && r.m.current == Some(endState) && r.m.next.None?
            && !r.m.executing
            && forall h :: h in m1.endHandlers ==> EndFired(h) in r.m.events
  {
    var env := HostEnv(sub, endState, frame);
    HeadroomUsed(m1, frame, 2);
    var w1 := Watchdog(m1, frame);
    var x := w1.m.(events := w1.m.events + [Ran(endState, ViewOf(m1))]);
    assert ViewOf(w1.m) == ViewOf(m1);
    HostScriptAt(sub, endState, frame, endState, ViewOf(m1));
    StaleEndPass(x, sub, endState, frame, fuel);
    var u := End(x, env, fuel);
    assert env.script(endState, ViewOf(m1)) == [EndMachine];
    assert Perform(x, EndMachine, env, fuel) == u;
    assert Exec(x, [EndMachine], env, fuel) == Exec(u.m, [], env, fuel);
    assert BaseRunState(m1, env, fuel) == Step(u.m, Ok);
    assert RunState(m1, env, fuel) == Step(u.m, Ok);
  }

  /** OnDestroy on a machine that is not running a state and not in StateEnd, when the old
      state's exit pass asks for nothing: the machine ends in StateEnd, settled, with nothing
      pending, and every OnEndSM subscriber is notified. */
  lemma DestroyFromIdleEnds(m: Machine, sub: Script, endState: StateId, frame: int, fuel: nat)
    requires m.current.Some? && m.current != Some(endState) && !m.executing && !m.ended
    requires forall v: View :: v.exit ==> sub(m.current.value, v) == []
    requires Headroom(m, frame, 4) && fuel >= 2
    ensures var r := Destroy(m, endState, HostEnv(sub, endState, frame), fuel);
            r.out.Ok? && r.m.ended && r.m.current == Some(endState) && !r.m.executing
            && r.m.next.None? && r.m.forceNext.None?
            && forall h :: h in m.endHandlers ==> EndFired(h) in r.m.events
  {
    var env := HostEnv(sub, endState, frame);
    var c := m.current.value;
    var d := SwitchStateExternalDelayed(m, Some(endState));
    var m0 := Started(d, 0.0);
    HeadroomUsed(m0, frame, 3);
    HostScriptAt(sub, endState, frame, c, ViewOf(m0));
    QuietRun(m0, env, fuel);
    var w0 := Watchdog(m0, frame);
    var f0 := w0.m.(events := w0.m.events + [Ran(c, ViewOf(m0))]);
    var g := f0.(enter := false, events := f0.events + StillUpdating(d));
    assert Update(d, 0.0, env, fuel) == Loop(g, 0.0, env, fuel);
    var m1 := Entered(g);
    EndEnterPass(m1, sub, endState, frame, fuel - 1);
    var r1 := RunState(m1, env, fuel - 1);
    assert Loop(g, 0.0, env, fuel) == Loop(r1.m.(enter := false), 0.0, env, fuel - 1);
    var r := Loop(r1.m.(enter := false), 0.0, env, fuel - 1);
    forall h | h in m.endHandlers
      ensures EndFired(h) in r.m.events
    {
      PrefixKeeps(r1.m.events, r.m.events, EndFired(h));
    }
  }

  // ---------------------------------------------------------------------------------------
  // The component's Update while StateEnd does not run

  /** Two environments with the same handler and frame whose state bodies differ at most in
      state `e`. */
  ghost predicate AgreeExcept(env1: Env, env2: Env, e: StateId) {
    env1.catching == env2.catching && env1.frame == env2.frame
    && forall s: StateId, v: View :: s != e ==> env1.script(s, v) == env2.script(s, v)
  }

  /** Only state `e` calls End. */
  ghost predicate EndOnlyFrom(env: Env, e: StateId) {
    forall s: StateId, v: View :: s != e ==> EndMachine !in env.script(s, v)
  }

  /** A run of state `s` is logged at or after position `n`. */
  ghost predicate RanSince(s: StateId, es: seq<Event>, n: nat) {
    exists i :: n <= i < |es| && es[i].Ran? && es[i].state == s
  }

  /** The component's states with StateEnd's body left empty. */
  function WithoutStateEnd(sub: Script, endState: StateId): (r: Script)
    ensures forall v: View :: r(endState, v) == []
    ensures forall s: StateId, v: View :: s != endState ==> r(s, v) == sub(s, v)
  {
    (s: StateId, v: View) => if s == endState then [] else sub(s, v)
  }

  function QuietEndEnv(sub: Script, endState: StateId, frame: int): Env {
    Env(Catching(StateException), WithoutStateEnd(sub, endState), frame)
  }

  /** Requests without End do the same under two environments that agree on the handler and
      the frame: only End runs state bodies. */
  lemma {:induction false} ExecAgrees(m: Machine, reqs: seq<Request>, env1: Env, env2: Env,
                                      fuel: nat)
    requires env1.catching == env2.catching && env1.frame == env2.frame
    requires EndMachine !in reqs
    ensures Exec(m, reqs, env1, fuel) == Exec(m, reqs, env2, fuel)
    decreases |reqs|
  {
    if reqs != [] {
      assert reqs[0] in reqs && reqs[0] != EndMachine;
      var r1 := Perform(m, reqs[0], env1, fuel);
      assert Perform(m, reqs[0], env2, fuel) == r1;
      assert forall q :: q in reqs[1..] ==> q in reqs;
      ExecAgrees(r1.m, reqs[1..], env1, env2, fuel);
    }
  }

  /** A state run is the same under both environments unless it is a run of `e` that passes
      the watchdog. */
  lemma RunAgrees(m: Machine, env1: Env, env2: Env, e: StateId, fuel: nat)
    requires AgreeExcept(env1, env2, e) && EndOnlyFrom(env1, e)
    ensures RunState(m, env1, fuel) == RunState(m, env2, fuel)
            || (m.current == Some(e) && Watchdog(m, env1.frame).out.Ok?)
  {
    var w := Watchdog(m, env1.frame);
    if w.out.Ok? && m.current.Some? && m.current != Some(e) {
      var s := w.m.current.value;
      var v := ViewOf(w.m);
      ExecAgrees(w.m.(events := w.m.events + [Ran(s, v)]), env1.script(s, v), env1, env2, fuel);
      assert BaseRunState(m, env1, fuel) == BaseRunState(m, env2, fuel);
    }
  }

  /** The transition loop is the same under both environments unless it logs a run of `e`. */
  lemma {:induction false} LoopAgrees(m: Machine, dt: real, env1: Env, env2: Env, e: StateId,
                                      fuel: nat)
    requires AgreeExcept(env1, env2, e) && EndOnlyFrom(env1, e)
    ensures var r := Loop(m, dt, env1, fuel);
            r == Loop(m, dt, env2, fuel) || RanSince(e, r.m.events, |m.events|)
    decreases fuel
  {
    if m.next.Some? && fuel > 0 {
      var m1 := Entered(m);
      RunAgrees(m1, env1, env2, e, fuel - 1);
      var r1 := RunState(m1, env1, fuel - 1);
      var r := Loop(m, dt, env1, fuel);
      if m1.current == Some(e) && Watchdog(m1, env1.frame).out.Ok? {
        LoopEntersPending(m, dt, env1, fuel);
      } else if r1.out.Ok? {
        var g := r1.m.(enter := false);
        LoopAgrees(g, 0.0, env1, env2, e, fuel - 1);
        assert r == Loop(g, 0.0, env1, fuel - 1);
        assert Loop(m, dt, env2, fuel) == Loop(g, 0.0, env2, fuel - 1);
      }
    }
  }

  /** An Update is the same under both environments, and so is its first run, unless the
      Update logs a run of `e`. */
  lemma UpdateAgrees(m: Machine, dt: real, env1: Env, env2: Env, e: StateId, fuel: nat)
    requires AgreeExcept(env1, env2, e) && EndOnlyFrom(env1, e)
    ensures var r := Update(m, dt, env1, fuel);
            (r == Update(m, dt, env2, fuel) && FirstRun(m, dt, env1, fuel) == FirstRun(m, dt, env2, fuel))
            || RanSince(e, r.m.events, |m.events|)
  {
    var m0 := Started(m, dt);
    RunAgrees(m0, env1, env2, e, fuel);
    var r1 := RunState(m0, env1, fuel);
    var r := Update(m, dt, env1, fuel);
    if m0.current == Some(e) && Watchdog(m0, env1.frame).out.Ok? {
      RunLogsFirst(m0, env1, fuel);
      if r1.out.Ok? {
        var g := r1.m.(enter := false, events := r1.m.events + StillUpdating(r1.m));
        assert r == Loop(g, dt, env1, fuel);
        assert r1.m.events <= g.events;
      }
      assert r1.m.events <= r.m.events;
      assert r.m.events[|m.events|] == Ran(e, ViewOf(m0));
    } else if r1.out.Ok? {
      var g := r1.m.(enter := false, events := r1.m.events + StillUpdating(r1.m));
      LoopAgrees(g, dt, env1, env2, e, fuel);
      assert r == Loop(g, dt, env1, fuel);
      assert Update(m, dt, env2, fuel) == Loop(g, dt, env2, fuel);
    }
  }

  /** The component's Update, when the game's states never call End, is the Update of a
      machine whose states never call End and whose handler never names a replacement, unless
      StateEnd runs during it. */
  lemma HostUpdateWithoutStateEnd(m: Machine, sub: Script, endState: StateId, dt: real,
                                  frame: int, fuel: nat)
    requires forall s: StateId, v: View :: s != endState ==> EndMachine !in sub(s, v)
    ensures NoEnd(QuietEndEnv(sub, endState, frame))
    ensures NeverRedirects(QuietEndEnv(sub, endState, frame))
    ensures var r := Update(m, dt, HostEnv(sub, endState, frame), fuel);
            var q := QuietEndEnv(sub, endState, frame);
            (r == Update(m, dt, q, fuel)
             && FirstRun(m, dt, HostEnv(sub, endState, frame), fuel) == FirstRun(m, dt, q, fuel))
            || RanSince(endState, r.m.events, |m.events|)
  {
    UpdateAgrees(m, dt, HostEnv(sub, endState, frame), QuietEndEnv(sub, endState, frame),
                 endState, fuel);
  }

  /** So, with the watchdog on, the component's Update returns, normally or by an exception,
      unless StateEnd runs during it. */
  lemma HostUpdateSettles(m: Machine, sub: Script, endState: StateId, dt: real, frame: int,
                          fuel: nat)
    requires forall s: StateId, v: View :: s != endState ==> EndMachine !in sub(s, v)
    requires m.watchdogEnabled && m.watchdogLimit > 0 && m.watchdogRuns >= 0
    requires fuel >= m.watchdogLimit
    ensures var r := Update(m, dt, HostEnv(sub, endState, frame), fuel);
            !r.out.Diverged? || RanSince(endState, r.m.events, |m.events|)
  {
    HostUpdateWithoutStateEnd(m, sub, endState, dt, frame, fuel);
    UpdateSettles(m, dt, QuietEndEnv(sub, endState, frame), fuel);
  }

  /** Every state run of the component's Update reads the DeltaTime passed to it, and the
      machine keeps it, unless StateEnd runs during it. */
  lemma HostUpdateKeepsDeltaTime(m: Machine, sub: Script, endState: StateId, dt: real,
                                 frame: int, fuel: nat)
    requires forall s: StateId, v: View :: s != endState ==> EndMachine !in sub(s, v)
    ensures var r := Update(m, dt, HostEnv(sub, endState, frame), fuel);
            RanSince(endState, r.m.events, |m.events|)
            || (r.m.deltaTime == dt
                && forall i :: |m.events| <= i < |r.m.events| && r.m.events[i].Ran? ==>
                     r.m.events[i].view.deltaTime == dt)
  {
    HostUpdateWithoutStateEnd(m, sub, endState, dt, frame, fuel);
    UpdateKeepsDeltaTime(m, dt, QuietEndEnv(sub, endState, frame), fuel);
  }

  /** The component's Update counts one more frame in the state it settles in, starting from
      the counters its first run leaves, or from 0 after a transition, unless StateEnd runs
      during it. */
  lemma HostUpdateCounters(m: Machine, sub: Script, endState: StateId, dt: real, frame: int,
                           fuel: nat)
    requires forall s: StateId, v: View :: s != endState ==> EndMachine !in sub(s, v)
    requires m.forceNext.Some? ==> m.framesInState == 0
    ensures var f := FirstRun(m, dt, HostEnv(sub, endState, frame), fuel);
            var r := Update(m, dt, HostEnv(sub, endState, frame), fuel);
            RanSince(endState, r.m.events, |m.events|)
            || ((r.out.Ok? && f.m.next.None? ==>
                   r.m.framesInState == f.m.framesInState + 1
                   && r.m.timeInState == f.m.timeInState + dt)
                && (r.out.Ok? && f.m.next.Some? ==> r.m.framesInState == 1 && r.m.timeInState == 0.0))
  {
    HostUpdateWithoutStateEnd(m, sub, endState, dt, frame, fuel);
    UpdateCounters(m, dt, QuietEndEnv(sub, endState, frame), fuel);
  }
}

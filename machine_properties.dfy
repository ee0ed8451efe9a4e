/** Properties of the state machine runtime, proved about the reference semantics of module
    `Semantics` (and so, through the class methods' postconditions, about the object). */
module MachineProperties {
  import opened Semantics

  // ---------------------------------------------------------------------------------------
  // Vocabulary

  /** No state body ever calls End, so no run re-enters Update. */
  ghost predicate NoEnd(env: Env) {
    forall s, v :: EndMachine !in env.script(s, v)
  }

  /** The current state's body, run on what the machine shows now, does not call End. */
  ghost predicate RunCallsNoEnd(m: Machine, env: Env) {
    m.current.Some? ==> EndMachine !in env.script(m.current.value, ViewOf(m))
  }

  /** The fields that a run whose requests do not include End cannot change. */
  ghost predicate RunFieldsKept(a: Machine, b: Machine) {
    b.ended == a.ended && b.executing == a.executing && b.deltaTime == a.deltaTime
    && b.ignoreEndUpdate == a.ignoreEndUpdate && b.endHandlers == a.endHandlers
    && b.watchdogLimit == a.watchdogLimit && b.watchdogEnabled == a.watchdogEnabled
    && b.watchdogRuns == a.watchdogRuns && b.watchdogLastFrame == a.watchdogLastFrame
  }

  /** Either a step left the pending state and both counters alone, or it reset the counters
      (every transition request does). */
  ghost predicate CountersKeptOrReset(a: Machine, b: Machine) {
    (b.next == a.next && b.framesInState == a.framesInState && b.timeInState == a.timeInState)
    || (b.framesInState == 0 && b.timeInState == 0.0)
  }

  /** Events that record no state run and no "ended, but still updating" warning. */
  ghost predicate NoRuns(es: seq<Event>) {
    forall i :: 0 <= i < |es| ==> !es[i].Ran? && es[i] != Warned(EndedButStillUpdating)
  }

  /** Events whose state runs are all runs of `s` seeing `v`, and which hold no "ended, but
      still updating" warning. */
  ghost predicate RunsOnlyOf(es: seq<Event>, s: StateRef, v: View) {
    forall i :: 0 <= i < |es| ==>
      (es[i].Ran? ==> Some(es[i].state) == s && es[i].view == v)
      && es[i] != Warned(EndedButStillUpdating)
  }

  /** Events whose state runs all saw EnterState true, ExitState false and DeltaTime `dt`, and
      which hold no "ended, but still updating" warning. */
  ghost predicate EnteredRuns(es: seq<Event>, dt: real) {
    forall i :: 0 <= i < |es| ==>
      (es[i].Ran? ==> es[i].view.enter && !es[i].view.exit && es[i].view.deltaTime == dt)
      && es[i] != Warned(EndedButStillUpdating)
  }

  /** The machine Update hands to its first RunState. */
  function Started(m: Machine, dt: real): (r: Machine)
    ensures r.executing && r.deltaTime == dt && r.next == m.forceNext
  {
    m.(executing := true, next := m.forceNext, deltaTime := dt)
  }

  /** The step of Update that runs the current state before any transition is applied. */
  function FirstRun(m: Machine, dt: real, env: Env, fuel: nat): Step {
    RunState(Started(m, dt), env, fuel)
  }

  // ---------------------------------------------------------------------------------------
  // Runs that do not call End

  /** `_SwitchState` records no state run, keeps the run fields and resets both counters. */
  lemma SwitchCoreWithoutRuns(m: Machine, s: StateRef)
    ensures var r := SwitchCore(m, s);
            RunFieldsKept(m, r) && r.current == m.current && r.enter == m.enter
            && r.framesInState == 0 && r.timeInState == 0.0
            && m.events <= r.events && NoRuns(r.events[|m.events|..])
  {
    var added := WarnIf(m.ended, SwitchOnEnded) + ExitEvents(m.exitHandlers);
    assert SwitchCore(m, s).events[|m.events|..] == added;
    forall i | 0 <= i < |added|
      ensures !added[i].Ran? && added[i] != Warned(EndedButStillUpdating)
    {
      if i >= |WarnIf(m.ended, SwitchOnEnded)| {
        assert added[i] == ExitEvents(m.exitHandlers)[i - |WarnIf(m.ended, SwitchOnEnded)|];
      }
    }
  }

  /** Adding a warning other than "ended, but still updating" records no state run. */
  lemma WarningWithoutRuns(m: Machine, e: seq<Event>, w: Warning)
    requires w != EndedButStillUpdating && (e == [] || e == [Warned(w)])
    ensures var r := m.(events := m.events + e);
            m.events <= r.events && NoRuns(r.events[|m.events|..])
  {
    assert m.(events := m.events + e).events[|m.events|..] == e;
  }

  lemma SwitchWithoutRuns(m: Machine, s: StateRef, env: Env, fuel: nat)
    ensures var r := Perform(m, Switch(s), env, fuel);
            !r.out.Diverged? && RunFieldsKept(m, r.m) && r.m.current == m.current && r.m.enter == m.enter
            && CountersKeptOrReset(m, r.m) && m.events <= r.m.events
            && NoRuns(r.m.events[|m.events|..])
  {
      var m1 := m.(pushed := false, events := m.events + WarnIf(!m.executing, SwitchFromOutside));
      WarningWithoutRuns(m.(pushed := false), WarnIf(!m.executing, SwitchFromOutside),
                         SwitchFromOutside);
      SwitchCoreWithoutRuns(m1, s);
      NoRunsAppend(m.events, m1.events, SwitchCore(m1, s).events);
  }
  lemma PushWithoutRuns(m: Machine, inner: StateRef, ret: StateRef, env: Env, fuel: nat)
    ensures var r := Perform(m, Push(inner, ret), env, fuel);
            !r.out.Diverged? && RunFieldsKept(m, r.m) && r.m.current == m.current && r.m.enter == m.enter
            && CountersKeptOrReset(m, r.m) && m.events <= r.m.events
            && NoRuns(r.m.events[|m.events|..])
  {
      var m1 := m.(stack := m.stack + [if ret.Some? then ret else m.current], pushed := true);
      SwitchCoreWithoutRuns(m1, inner);
  }
  lemma PopWithoutRuns(m: Machine, env: Env, fuel: nat)
    ensures var r := Perform(m, Pop, env, fuel);
            !r.out.Diverged? && RunFieldsKept(m, r.m) && r.m.current == m.current && r.m.enter == m.enter
            && CountersKeptOrReset(m, r.m) && m.events <= r.m.events
            && NoRuns(r.m.events[|m.events|..])
  {
      if |m.stack| > 0 {
        SwitchCoreWithoutRuns(m.(stack := m.stack[..|m.stack| - 1]), m.stack[|m.stack| - 1]);
      }
  }
  lemma ThrowWithoutRuns(m: Machine, c: int, env: Env, fuel: nat)
    ensures var r := Perform(m, Throw(c), env, fuel);
            !r.out.Diverged? && RunFieldsKept(m, r.m) && r.m.current == m.current && r.m.enter == m.enter
            && CountersKeptOrReset(m, r.m) && m.events <= r.m.events
            && NoRuns(r.m.events[|m.events|..])
  {
      assert m.events[|m.events|..] == [];
  }
  lemma PerformWithoutEnd(m: Machine, req: Request, env: Env, fuel: nat)
    requires req != EndMachine
    ensures var r := Perform(m, req, env, fuel);
            !r.out.Diverged? && RunFieldsKept(m, r.m) && r.m.current == m.current && r.m.enter == m.enter
            && CountersKeptOrReset(m, r.m) && m.events <= r.m.events
            && NoRuns(r.m.events[|m.events|..])
  {
    match req
    case Switch(s) => SwitchWithoutRuns(m, s, env, fuel);
    case Push(inner, ret) => PushWithoutRuns(m, inner, ret, env, fuel);
    case Pop => PopWithoutRuns(m, env, fuel);
    case AssertPushed(e) => assert m.events[|m.events|..] == [];
    case Throw(c) => ThrowWithoutRuns(m, c, env, fuel);
  }

  /** Two stretches of events without state runs make one. */
  lemma NoRunsAppend(a: seq<Event>, b: seq<Event>, c: seq<Event>)
    requires a <= b <= c && NoRuns(b[|a|..]) && NoRuns(c[|b|..])
    ensures a <= c && NoRuns(c[|a|..])
  {
    assert c[|a|..] == b[|a|..] + c[|b|..];
  }

  lemma {:induction false} ExecWithoutEnd(m: Machine, reqs: seq<Request>, env: Env, fuel: nat)
    requires EndMachine !in reqs
    ensures var r := Exec(m, reqs, env, fuel);
            !r.out.Diverged? && RunFieldsKept(m, r.m) && r.m.current == m.current && r.m.enter == m.enter
            && CountersKeptOrReset(m, r.m) && m.events <= r.m.events
            && NoRuns(r.m.events[|m.events|..])
    decreases |reqs|
  {
    if reqs != [] {
      var r1 := Perform(m, reqs[0], env, fuel);
      PerformWithoutEnd(m, reqs[0], env, fuel);
      if r1.out.Ok? {
        assert EndMachine !in reqs[1..] by {
          assert reqs == [reqs[0]] + reqs[1..];
        }
        ExecWithoutEnd(r1.m, reqs[1..], env, fuel);
        NoRunsAppend(m.events, r1.m.events, Exec(r1.m, reqs[1..], env, fuel).m.events);
      }
    }
  }

  /** A run of the current state, without End: it records at most one state run, of the
      current state, seeing the flags the machine had when it started. */
  lemma BaseRunWithoutEnd(m: Machine, env: Env, fuel: nat)
    requires RunCallsNoEnd(m, env)
    ensures var r := BaseRunState(m, env, fuel);
            var w := Watchdog(m, env.frame);
            !r.out.Diverged? && RunFieldsKept(w.m, r.m) && CountersKeptOrReset(m, r.m)
            && r.m.current == m.current && r.m.enter == m.enter
            && m.events <= r.m.events && RunsOnlyOf(r.m.events[|m.events|..], m.current, ViewOf(m))
            && (w.out.Ok? && m.current.Some? ==>
                  |r.m.events| > |m.events| && r.m.events[|m.events|] == Ran(m.current.value, ViewOf(m)))
  {
    var w := Watchdog(m, env.frame);
    if w.out.Ok? && w.m.current.Some? {
      BodyWithoutEnd(m, w.m, env, fuel);
    } else {
      assert m.events[|m.events|..] == [];
    }
  }

  /** The body of the current state `s`, run after the watchdog let it through. */
  lemma BodyWithoutEnd(m: Machine, w: Machine, env: Env, fuel: nat)
    requires w == Watchdog(m, env.frame).m && Watchdog(m, env.frame).out.Ok?
    requires m.current.Some? && RunCallsNoEnd(m, env)
    ensures var s := m.current.value;
            var v := ViewOf(m);
            var r := Exec(w.(events := w.events + [Ran(s, v)]), env.script(s, v), env, fuel);
            !r.out.Diverged? && RunFieldsKept(w, r.m) && CountersKeptOrReset(m, r.m)
            && r.m.current == m.current && r.m.enter == m.enter
            && m.events <= r.m.events && RunsOnlyOf(r.m.events[|m.events|..], m.current, v)
            && |r.m.events| > |m.events| && r.m.events[|m.events|] == Ran(s, v)
  {
    var s := m.current.value;
    var v := ViewOf(w);
    var m1 := w.(events := w.events + [Ran(s, v)]);
    ExecWithoutEnd(m1, env.script(s, v), env, fuel);
    var r := Exec(m1, env.script(s, v), env, fuel);
    assert r.m.events[|m.events|..] == [Ran(s, v)] + r.m.events[|m1.events|..];
  }

  /** What the exception handler adds after a failed run: a warning and, when the handler
      names a replacement, the forced switch to it. */
  lemma RecoveryWithoutRuns(b: Machine, f: Failure, replacement: StateRef)
    ensures var m1 := b.(events := b.events + [Warned(StateExceptionCaught(f))]);
            var r := if replacement.Some? then ForceState(m1, replacement) else m1;
            RunFieldsKept(b, r) && b.events <= r.events && NoRuns(r.events[|b.events|..])
            && (replacement.Some? ==> r.framesInState == 0 && r.timeInState == 0.0)
            && (replacement.None? ==> r.next == b.next && r.framesInState == b.framesInState
                                      && r.timeInState == b.timeInState)
  {
    var m1 := b.(events := b.events + [Warned(StateExceptionCaught(f))]);
    WarningWithoutRuns(b, [Warned(StateExceptionCaught(f))], StateExceptionCaught(f));
    if replacement.Some? {
      var m2 := m1.(framesInState := 0, timeInState := 0.0, exit := false, enter := true,
                    forceNext := None, next := None, current := None);
      SwitchCoreWithoutRuns(m2, replacement);
      NoRunsAppend(b.events, m1.events, ForceState(m1, replacement).events);
    }
  }

  /** Events that extend a stretch of runs of one state by events without runs. */
  lemma RunsThenNoRuns(a: seq<Event>, b: seq<Event>, c: seq<Event>, s: StateRef, v: View)
    requires a <= b <= c && RunsOnlyOf(b[|a|..], s, v) && NoRuns(c[|b|..])
    ensures a <= c && RunsOnlyOf(c[|a|..], s, v) && c[..|b|] == b
  {
    assert c[|a|..] == b[|a|..] + c[|b|..];
  }

  lemma RunCaught(m: Machine, env: Env, fuel: nat)
    requires RunCallsNoEnd(m, env)
    requires env.catching.Catching? && BaseRunState(m, env, fuel).out.Raised?
    ensures var r := RunState(m, env, fuel);
            var w := Watchdog(m, env.frame);
            !r.out.Diverged? && RunFieldsKept(w.m, r.m) && CountersKeptOrReset(m, r.m)
            && m.events <= r.m.events && RunsOnlyOf(r.m.events[|m.events|..], m.current, ViewOf(m))
            && (w.out.Ok? && m.current.Some? ==>
                  |r.m.events| > |m.events| && r.m.events[|m.events|] == Ran(m.current.value, ViewOf(m)))
  {
    BaseRunWithoutEnd(m, env, fuel);
    var b := BaseRunState(m, env, fuel);
      var replacement := env.catching.onException(b.m.current, b.out.failure);
      RecoveryWithoutRuns(b.m, b.out.failure, replacement);
      RunsThenNoRuns(m.events, b.m.events, RunState(m, env, fuel).m.events, m.current, ViewOf(m));
  }
  lemma RunUncaught(m: Machine, env: Env, fuel: nat)
    requires RunCallsNoEnd(m, env)
    requires !(env.catching.Catching? && BaseRunState(m, env, fuel).out.Raised?)
    ensures var r := RunState(m, env, fuel);
            var w := Watchdog(m, env.frame);
            !r.out.Diverged? && RunFieldsKept(w.m, r.m) && CountersKeptOrReset(m, r.m)
            && m.events <= r.m.events && RunsOnlyOf(r.m.events[|m.events|..], m.current, ViewOf(m))
            && (w.out.Ok? && m.current.Some? ==>
                  |r.m.events| > |m.events| && r.m.events[|m.events|] == Ran(m.current.value, ViewOf(m)))
  {
    BaseRunWithoutEnd(m, env, fuel);
    var b := BaseRunState(m, env, fuel);
      assert RunState(m, env, fuel) == b;
  }

  /** The same for RunState, with or without an exception handler. A redirect by the handler
      is a transition: it leaves a pending state and resets the counters. */
  lemma RunWithoutEnd(m: Machine, env: Env, fuel: nat)
    requires RunCallsNoEnd(m, env)
    ensures var r := RunState(m, env, fuel);
            var w := Watchdog(m, env.frame);
            !r.out.Diverged? && RunFieldsKept(w.m, r.m) && CountersKeptOrReset(m, r.m)
            && m.events <= r.m.events && RunsOnlyOf(r.m.events[|m.events|..], m.current, ViewOf(m))
            && (w.out.Ok? && m.current.Some? ==>
                  |r.m.events| > |m.events| && r.m.events[|m.events|] == Ran(m.current.value, ViewOf(m)))
  {
    if env.catching.Catching? && BaseRunState(m, env, fuel).out.Raised? {
      RunCaught(m, env, fuel);
    } else {
      RunUncaught(m, env, fuel);
    }
  }

  /** The runs of one state that saw EnterState true and ExitState false. */
  lemma RunsOfEntered(a: seq<Event>, b: seq<Event>, c: seq<Event>, s: StateRef, v: View)
    requires a <= b <= c && RunsOnlyOf(b[|a|..], s, v) && EnteredRuns(c[|b|..], v.deltaTime)
    requires v.enter && !v.exit
    ensures a <= c && EnteredRuns(c[|a|..], v.deltaTime)
  {
    assert c[|a|..] == b[|a|..] + c[|b|..];
  }

  /** The machine the transition loop hands to RunState when it takes the pending state. */
  function Entered(m: Machine): (r: Machine)
    ensures r.enter && !r.exit && r.next.None? && r.current == m.next && r.timeInState == 0.0
  {
    m.(current := m.next, next := None, enter := true, exit := false, timeInState := 0.0)
  }

  /** The transition loop of Update, when no state calls End: every state it enters runs with
      EnterState true, ExitState false and the DeltaTime of the frame; when it settles, the
      counters count the current frame only if no transition was applied. */
  lemma {:induction false} LoopWithoutEnd(m: Machine, dt: real, env: Env, fuel: nat)
    requires NoEnd(env)
    ensures var r := Loop(m, dt, env, fuel);
            r.m.deltaTime == m.deltaTime && r.m.ended == m.ended
            && r.m.ignoreEndUpdate == m.ignoreEndUpdate
            && m.events <= r.m.events && EnteredRuns(r.m.events[|m.events|..], m.deltaTime)
    ensures var r := Loop(m, dt, env, fuel);
            r.out.Ok? && m.next.None? ==>
              r.m.framesInState == m.framesInState + 1 && r.m.timeInState == m.timeInState + dt
    ensures var r := Loop(m, dt, env, fuel);
            r.out.Ok? && m.next.Some? && m.framesInState == 0 ==>
              r.m.framesInState == 1 && r.m.timeInState == 0.0
    decreases fuel
  {
    if m.next.Some? && fuel > 0 {
      var m1 := Entered(m);
      RunWithoutEnd(m1, env, fuel - 1);
      var r1 := RunState(m1, env, fuel - 1);
      if r1.out.Ok? {
        var m2 := r1.m.(enter := false);
        LoopWithoutEnd(m2, 0.0, env, fuel - 1);
        RunsOfEntered(m.events, r1.m.events, Loop(m2, 0.0, env, fuel - 1).m.events,
                      m1.current, ViewOf(m1));
      } else {
        RunsOfEntered(m.events, r1.m.events, r1.m.events, m1.current, ViewOf(m1));
      }
    } else {
      assert Loop(m, dt, env, fuel).m.events[|m.events|..] == [];
    }
  }

  /** Update's own "ended, but still updating" warning, given after the first run. */
  function StillUpdating(m: Machine): seq<Event> {
    WarnIf(m.ended && !m.ignoreEndUpdate, EndedButStillUpdating)
  }

  /** Update, when no state calls End. The first run is a run of the current state that sees
      the machine's own EnterState and ExitState and the new DeltaTime; every later run is of a
      state entered in this call and sees EnterState true and ExitState false. All of them see
      the DeltaTime passed to Update: it is not zeroed for the states entered later. */
  lemma UpdateWithoutEnd(m: Machine, dt: real, env: Env, fuel: nat)
    requires NoEnd(env)
    ensures var f := FirstRun(m, dt, env, fuel);
            m.events <= f.m.events
            && RunsOnlyOf(f.m.events[|m.events|..], m.current, ViewOf(Started(m, dt)))
    ensures var f := FirstRun(m, dt, env, fuel);
            var r := Update(m, dt, env, fuel);
            !f.out.Ok? ==> r == f
    ensures var f := FirstRun(m, dt, env, fuel);
            var r := Update(m, dt, env, fuel);
            var g := f.m.events + StillUpdating(m);
            f.out.Ok? ==> g <= r.m.events && EnteredRuns(r.m.events[|g|..], dt)
    ensures var r := Update(m, dt, env, fuel);
            r.m.deltaTime == dt && r.m.ended == m.ended && r.m.ignoreEndUpdate == m.ignoreEndUpdate
  {
    var m0 := Started(m, dt);
    RunWithoutEnd(m0, env, fuel);
    var f := RunState(m0, env, fuel);
    if f.out.Ok? {
      var m2 := f.m.(enter := false, events := f.m.events + StillUpdating(m));
      LoopWithoutEnd(m2, dt, env, fuel);
    }
  }

  /** FramesInState and TimeInState after an Update that returns normally, when no state calls
      End and a pending forced transition comes with FramesInState 0 (as every transition
      request leaves it). If the first run left no transition pending, the frame is counted:
      FramesInState grows by one and TimeInState by `dt` (from the values the first run left,
      which are the old ones unless it made a request to switch to null). Otherwise the newly
      entered state has run for one frame and no time. */
  lemma UpdateCounters(m: Machine, dt: real, env: Env, fuel: nat)
    requires NoEnd(env)
    requires m.forceNext.Some? ==> m.framesInState == 0
    ensures var f := FirstRun(m, dt, env, fuel);
            (f.m.framesInState == m.framesInState && f.m.timeInState == m.timeInState)
            || (f.m.framesInState == 0 && f.m.timeInState == 0.0)
    ensures var f := FirstRun(m, dt, env, fuel);
            var r := Update(m, dt, env, fuel);
            r.out.Ok? && f.m.next.None? ==>
              r.m.framesInState == f.m.framesInState + 1 && r.m.timeInState == f.m.timeInState + dt
    ensures var f := FirstRun(m, dt, env, fuel);
            var r := Update(m, dt, env, fuel);
            r.out.Ok? && f.m.next.Some? ==> r.m.framesInState == 1 && r.m.timeInState == 0.0
  {
    var m0 := Started(m, dt);
    RunWithoutEnd(m0, env, fuel);
    var f := RunState(m0, env, fuel);
    if f.out.Ok? {
      var m2 := f.m.(enter := false, events := f.m.events + StillUpdating(m));
      LoopWithoutEnd(m2, dt, env, fuel);
    }
  }

  /** DeltaTime keeps the value passed to Update for every state run in that call, including
      the states entered after a transition. */
  lemma UpdateKeepsDeltaTime(m: Machine, dt: real, env: Env, fuel: nat)
    requires NoEnd(env)
    ensures var r := Update(m, dt, env, fuel);
            r.m.deltaTime == dt && m.events <= r.m.events
            && forall i :: |m.events| <= i < |r.m.events| && r.m.events[i].Ran? ==>
                 r.m.events[i].view.deltaTime == dt
  {
    UpdateWithoutEnd(m, dt, env, fuel);
    var f := FirstRun(m, dt, env, fuel);
    var r := Update(m, dt, env, fuel);
    forall i | |m.events| <= i < |r.m.events| && r.m.events[i].Ran?
      ensures r.m.events[i].view.deltaTime == dt
    {
      if i < |f.m.events| {
        assert r.m.events[i] == f.m.events[|m.events|..][i - |m.events|];
      } else if f.out.Ok? {
        var g := f.m.events + StillUpdating(m);
        if i >= |g| {
          assert r.m.events[i] == r.m.events[|g|..][i - |g|];
        }
      }
    }
  }

  // ---------------------------------------------------------------------------------------
  // Transition requests

  /** The OnExitState subscribers notified in `es`, in order. */
  function ExitNotified(es: seq<Event>): seq<HandlerId> {
    if es == [] then []
    else (if es[0].ExitFired? then [es[0].handler] else []) + ExitNotified(es[1..])
  }

  lemma {:induction false} ExitNotifiedAppend(a: seq<Event>, b: seq<Event>)
    ensures ExitNotified(a + b) == ExitNotified(a) + ExitNotified(b)
    decreases |a|
  {
    if a == [] {
      assert a + b == b;
    } else {
      assert (a + b)[0] == a[0] && (a + b)[1..] == a[1..] + b;
      ExitNotifiedAppend(a[1..], b);
    }
  }

  /** Running the exit handlers notifies each subscriber once, in subscription order. */
  lemma {:induction false} ExitEventsNotify(hs: seq<HandlerId>)
    ensures ExitNotified(ExitEvents(hs)) == hs
    decreases |hs|
  {
    if hs != [] {
      assert ExitEvents(hs) == [ExitFired(hs[0])] + ExitEvents(hs[1..]);
      ExitNotifiedAppend([ExitFired(hs[0])], ExitEvents(hs[1..]));
      ExitEventsNotify(hs[1..]);
    }
  }

  lemma WarnIfNotifiesNone(b: bool, w: Warning)
    ensures ExitNotified(WarnIf(b, w)) == []
  {
  }

  /** One SwitchState: what it leaves pending, and whom it notifies. */
  lemma SwitchNotifies(m: Machine, s: StateRef)
    ensures var r := SwitchState(m, s);
            r.next == s && r.forceNext == (if m.executing then m.forceNext else s)
            && r.exit && !r.pushed && r.framesInState == 0 && r.timeInState == 0.0
            && r.current == m.current && r.enter == m.enter && RunFieldsKept(m, r)
            && r.exitHandlers == [] && m.events <= r.events
            && ExitNotified(r.events[|m.events|..]) == m.exitHandlers
  {
    var w1 := WarnIf(!m.executing, SwitchFromOutside);
    var w2 := WarnIf(m.ended, SwitchOnEnded);
    var r := SwitchState(m, s);
    assert r.events[|m.events|..] == w1 + w2 + ExitEvents(m.exitHandlers);
    ExitNotifiedAppend(w1 + w2, ExitEvents(m.exitHandlers));
    ExitNotifiedAppend(w1, w2);
    WarnIfNotifiesNone(!m.executing, SwitchFromOutside);
    WarnIfNotifiesNone(m.ended, SwitchOnEnded);
    ExitEventsNotify(m.exitHandlers);
  }

  lemma NotifiedAcross(a: seq<Event>, b: seq<Event>, c: seq<Event>)
    requires a <= b <= c && ExitNotified(c[|b|..]) == []
    ensures a <= c && ExitNotified(c[|a|..]) == ExitNotified(b[|a|..])
  {
    assert c[|a|..] == b[|a|..] + c[|b|..];
    ExitNotifiedAppend(b[|a|..], c[|b|..]);
  }

  /** When a run makes several SwitchState requests, the last one decides the pending state,
      and the exit handlers are notified once in all: the first request notifies and clears
      them. */
  lemma {:induction false} LastSwitchWins(m: Machine, reqs: seq<Request>, env: Env, fuel: nat)
    requires |reqs| > 0 && forall i :: 0 <= i < |reqs| ==> reqs[i].Switch?
    ensures var r := Exec(m, reqs, env, fuel);
            r.out == Ok && r.m.next == reqs[|reqs| - 1].target
            && r.m.forceNext == (if m.executing then m.forceNext else reqs[|reqs| - 1].target)
            && r.m.exit && !r.m.pushed && r.m.framesInState == 0 && r.m.timeInState == 0.0
            && r.m.current == m.current && r.m.enter == m.enter && RunFieldsKept(m, r.m)
            && r.m.exitHandlers == [] && m.events <= r.m.events
            && ExitNotified(r.m.events[|m.events|..]) == m.exitHandlers
    decreases |reqs|
  {
    var m1 := SwitchState(m, reqs[0].target);
    SwitchNotifies(m, reqs[0].target);
    assert Perform(m, reqs[0], env, fuel) == Step(m1, Ok);
    if |reqs| == 1 {
      assert reqs[1..] == [];
    } else {
      LastSwitchWins(m1, reqs[1..], env, fuel);
      NotifiedAcross(m.events, m1.events, Exec(m1, reqs[1..], env, fuel).m.events);
    }
  }

  // ---------------------------------------------------------------------------------------
  // Sub-state stack

  /** PushState followed by PopState restores the stack and heads back to the return state
      (the current state when none was given). IsPushedState stays true: PopState does not
      clear it. */
  lemma PushThenPop(m: Machine, inner: StateRef, ret: StateRef)
    ensures var p := PopState(PushState(m, inner, ret));
            p.out == Ok && p.m.stack == m.stack && SubStateMachineDepth(p.m) == SubStateMachineDepth(m)
            && p.m.next == (if ret.Some? then ret else m.current) && p.m.pushed
  {
    var m1 := PushState(m, inner, ret);
    assert m1.stack[..|m.stack|] == m.stack;
  }

  /** Pushing each of `rets` in turn (each as the explicit return state). */
  function PushAll(m: Machine, inner: StateRef, rets: seq<StateId>): (r: Machine)
    decreases |rets|
  {
    if rets == [] then m else PushAll(PushState(m, inner, Some(rets[0])), inner, rets[1..])
  }

  datatype Pops = Pops(step: Step, targets: seq<StateRef>)

  /** `n` calls of PopState, stopping at the first that throws; the targets they switched to. */
  function PopAll(m: Machine, n: nat): Pops
    decreases n
  {
    if n == 0 then Pops(Step(m, Ok), [])
    else
      var p := PopState(m);
      if !p.out.Ok? then Pops(p, [])
      else
        var rest := PopAll(p.m, n - 1);
        Pops(rest.step, [p.m.next] + rest.targets)
  }

  function Reversed<T>(s: seq<T>): (r: seq<T>)
    ensures |r| == |s|
  {
    if s == [] then [] else [s[|s| - 1]] + Reversed(s[..|s| - 1])
  }

  function Somes(ids: seq<StateId>): (r: seq<StateRef>)
    ensures |r| == |ids| && forall i :: 0 <= i < |ids| ==> r[i] == Some(ids[i])
  {
    seq(|ids|, i requires 0 <= i < |ids| => Some(ids[i]))
  }

  lemma {:induction false} PushAllStack(m: Machine, inner: StateRef, rets: seq<StateId>)
    ensures PushAll(m, inner, rets).stack == m.stack + Somes(rets)
    decreases |rets|
  {
    if rets != [] {
      var m1 := PushState(m, inner, Some(rets[0]));
      PushAllStack(m1, inner, rets[1..]);
      assert m1.stack == m.stack + [Some(rets[0])];
      assert Somes(rets) == [Some(rets[0])] + Somes(rets[1..]);
    }
  }

  lemma {:induction false} PopAllStack(m: Machine, base: seq<StateRef>, top: seq<StateRef>)
    requires m.stack == base + top
    ensures var p := PopAll(m, |top|);
            p.step.out == Ok && p.step.m.stack == base && p.targets == Reversed(top)
    decreases |top|
  {
    if top != [] {
      var p := PopState(m);
      assert p.m.stack == base + top[..|top| - 1];
      assert p.m.next == top[|top| - 1];
      PopAllStack(p.m, base, top[..|top| - 1]);
    }
  }

  /** The stack is last in, first out: after pushing `rets`, as many pops switch to them in
      reverse order and leave the stack as it was. One pop more throws and switches nowhere. */
  lemma PushesPopInReverse(m: Machine, inner: StateRef, rets: seq<StateId>)
    ensures var p := PopAll(PushAll(m, inner, rets), |rets|);
            p.step.out == Ok && p.step.m.stack == m.stack && p.targets == Reversed(Somes(rets))
            && (m.stack == [] ==> PopState(p.step.m) == Step(p.step.m, Raised(EmptyStack)))
  {
    PushAllStack(m, inner, rets);
    PopAllStack(PushAll(m, inner, rets), m.stack, Somes(rets));
  }

  // ---------------------------------------------------------------------------------------
  // Watchdog

  /** `n` RunState-time watchdog checks in frame `frame`, stopping at the first that throws. */
  function Watchdogs(m: Machine, frame: int, n: nat): Step
    decreases n
  {
    if n == 0 then Step(m, Ok)
    else
      var w := Watchdog(m, frame);
      if w.out.Ok? then Watchdogs(w.m, frame, n - 1) else w
  }

  lemma {:induction false} WatchdogSameFrame(m: Machine, frame: int, n: nat)
    requires m.watchdogEnabled && m.watchdogLimit > 0 && m.watchdogLastFrame == frame
    requires 0 <= m.watchdogRuns <= m.watchdogLimit
    ensures var r := Watchdogs(m, frame, n);
            (r.out == Ok <==> m.watchdogRuns + n <= m.watchdogLimit)
            && (r.out.Ok? ==> r.m.watchdogRuns == m.watchdogRuns + n)
            && (!r.out.Ok? ==> r.out == Raised(WatchdogTriggered)
                                && r.m.watchdogRuns == m.watchdogLimit + 1)
    decreases n
  {
    if n > 0 {
      var w := Watchdog(m, frame);
      if w.out.Ok? {
        WatchdogSameFrame(w.m, frame, n - 1);
      }
    }
  }

  /** In a new frame the watchdog lets exactly `watchdogLimit` runs through: the run after
      them throws. */
  lemma WatchdogTripsAfterLimit(m: Machine, frame: int, n: nat)
    requires m.watchdogEnabled && m.watchdogLimit > 0 && m.watchdogLastFrame != frame
    ensures var r := Watchdogs(m, frame, n);
            (r.out == Ok <==> n <= m.watchdogLimit)
            && (n == m.watchdogLimit + 1 ==> r.out == Raised(WatchdogTriggered))
  {
    if n > 0 {
      var w := Watchdog(m, frame);
      WatchdogSameFrame(w.m, frame, n - 1);
    }
  }

  /** A disabled watchdog, or one with `watchdogLimit <= 0`, never throws and never counts a
      run (a new frame still resets the count of an enabled one). */
  lemma {:induction false} WatchdogNeverTrips(m: Machine, frame: int, n: nat)
    requires !m.watchdogEnabled || m.watchdogLimit <= 0
    ensures var r := Watchdogs(m, frame, n);
            r.out == Ok && (r.m.watchdogRuns == m.watchdogRuns || r.m.watchdogRuns == 0)
            && r.m.watchdogEnabled == m.watchdogEnabled && r.m.watchdogLimit == m.watchdogLimit
    decreases n
  {
    if n > 0 {
      WatchdogNeverTrips(Watchdog(m, frame).m, frame, n - 1);
    }
  }

  // ---------------------------------------------------------------------------------------
  // Termination of the transition loop

  /** The watchdog as it stands after an earlier run of this frame let a run through. */
  ghost predicate WatchdogArmed(m: Machine, frame: int) {
    m.watchdogEnabled && m.watchdogLimit > 0 && m.watchdogLastFrame == frame
    && m.watchdogRuns <= m.watchdogLimit
  }

  /** No exception handler, or one that never names a replacement (as the default
      StateException): every failure of a run leaves RunState. */
  ghost predicate NeverRedirects(env: Env) {
    env.catching.Catching? ==> forall c: StateRef, f: Failure :: env.catching.onException(c, f).None?
  }

  /** With the watchdog enabled and a positive limit, the transition loop of a machine whose
      handler never redirects settles or throws: fuel beyond the runs the watchdog still allows is never exhausted. */
  lemma {:induction false} LoopSettles(m: Machine, dt: real, env: Env, fuel: nat)
    requires NoEnd(env) && NeverRedirects(env) && WatchdogArmed(m, env.frame)
    requires fuel > m.watchdogLimit - m.watchdogRuns
    ensures !Loop(m, dt, env, fuel).out.Diverged?
    decreases fuel
  {
    if m.next.Some? {
      var m1 := Entered(m);
      RunWithoutEnd(m1, env, fuel - 1);
      var r1 := RunState(m1, env, fuel - 1);
      if r1.out.Ok? {
        var b := BaseRunState(m1, env, fuel - 1);
        assert b.out.Ok? && r1 == b;
        assert Watchdog(m1, env.frame).out.Ok?;
        assert WatchdogArmed(r1.m.(enter := false), env.frame);
        LoopSettles(r1.m.(enter := false), 0.0, env, fuel - 1);
        assert Loop(m, dt, env, fuel) == Loop(r1.m.(enter := false), 0.0, env, fuel - 1);
      }
    }
  }

  /** Hence Update, on a machine whose states never call End and whose handler (if any) never
      names a replacement, always returns, normally or by an exception, given as much fuel as
      the watchdog limit. */
  lemma UpdateSettles(m: Machine, dt: real, env: Env, fuel: nat)
    requires NoEnd(env) && NeverRedirects(env)
    requires m.watchdogEnabled && m.watchdogLimit > 0 && m.watchdogRuns >= 0
    requires fuel >= m.watchdogLimit
    ensures !Update(m, dt, env, fuel).out.Diverged?
  {
    var m0 := Started(m, dt);
    RunWithoutEnd(m0, env, fuel);
    var f := RunState(m0, env, fuel);
    if f.out.Ok? {
      assert Watchdog(m0, env.frame).out.Ok?;
      LoopSettles(f.m.(enter := false, events := f.m.events + StillUpdating(m)), dt, env, fuel);
    }
  }

  /** An exception handler that answers every exception, the watchdog's included, with state
      `s`, whose body always throws. */
  ghost predicate RedirectsToFailing(env: Env, s: StateId) {
    env.catching.Catching?
    && (forall c: StateRef, f: Failure :: env.catching.onException(c, f) == Some(s))
    && forall v: View :: |env.script(s, v)| > 0 && env.script(s, v)[0].Throw?
  }

  /** Every run of `s` under such a handler fails, is caught, and forces `s` again. */
  lemma RedirectedRun(m: Machine, s: StateId, env: Env, fuel: nat)
    requires RedirectsToFailing(env, s) && m.current == Some(s)
    ensures var r := RunState(m, env, fuel); r.out == Ok && r.m.next == Some(s)
  {
    var w := Watchdog(m, env.frame);
    if w.out.Ok? {
      var v := ViewOf(w.m);
      var x := w.m.(events := w.m.events + [Ran(s, v)]);
      var reqs := env.script(s, v);
      assert Perform(x, reqs[0], env, fuel).out.Raised?;
      assert Exec(x, reqs, env, fuel).out.Raised?;
    }
    assert BaseRunState(m, env, fuel).out.Raised?;
  }

  /** So, with such a handler, the transition loop never settles, whatever the fuel and
      whatever the watchdog's limit: the watchdog's own exception is caught and answered with
      `s` like any other. */
  lemma {:induction false} RedirectedLoopHangs(m: Machine, s: StateId, dt: real, env: Env,
                                               fuel: nat)
    requires RedirectsToFailing(env, s) && m.next == Some(s)
    ensures Loop(m, dt, env, fuel).out == Diverged
    decreases fuel
  {
    if fuel > 0 {
      var m1 := Entered(m);
      RedirectedRun(m1, s, env, fuel - 1);
      var r1 := RunState(m1, env, fuel - 1);
      RedirectedLoopHangs(r1.m.(enter := false), s, 0.0, env, fuel - 1);
    }
  }

  /** ... and neither does an Update whose current state is `s`. */
  lemma RedirectedUpdateHangs(m: Machine, s: StateId, dt: real, env: Env, fuel: nat)
    requires RedirectsToFailing(env, s) && m.current == Some(s)
    ensures Update(m, dt, env, fuel).out == Diverged
  {
    var m0 := Started(m, dt);
    RedirectedRun(m0, s, env, fuel);
    var r1 := RunState(m0, env, fuel);
    RedirectedLoopHangs(r1.m.(enter := false, events := r1.m.events + StillUpdating(r1.m)), s, dt,
                        env, fuel);
  }

  /** State `s` switches to itself on every run. */
  ghost predicate SelfSwitching(env: Env, s: StateId) {
    forall v :: env.script(s, v) == [Switch(Some(s))]
  }

  /** One run of a self-switching state that the watchdog lets through. */
  lemma SelfSwitchRun(m: Machine, env: Env, fuel: nat, s: StateId)
    requires env.catching == NoCatching && SelfSwitching(env, s) && m.current == Some(s)
    requires Watchdog(m, env.frame).out.Ok?
    ensures var r := RunState(m, env, fuel);
            r.out == Ok && r.m.next == Some(s) && r.m.current == Some(s)
            && RunFieldsKept(Watchdog(m, env.frame).m, r.m)
  {
    var w := Watchdog(m, env.frame);
    var v := ViewOf(w.m);
    var m1 := w.m.(events := w.m.events + [Ran(s, v)]);
    assert env.script(s, v) == [Switch(Some(s))];
    LastSwitchWins(m1, [Switch(Some(s))], env, fuel);
  }

  /** Without the watchdog, a state that switches to itself hangs Update: the loop never
      settles, whatever the fuel. */
  lemma {:induction false} SelfSwitchLoopHangs(m: Machine, dt: real, env: Env, fuel: nat,
                                                s: StateId)
    requires env.catching == NoCatching && SelfSwitching(env, s) && !m.watchdogEnabled
    requires m.next == Some(s)
    ensures Loop(m, dt, env, fuel).out == Diverged
    decreases fuel
  {
    if fuel > 0 {
      SelfSwitchRun(Entered(m), env, fuel - 1, s);
      var r1 := RunState(Entered(m), env, fuel - 1);
      SelfSwitchLoopHangs(r1.m.(enter := false), 0.0, env, fuel - 1, s);
    }
  }

  lemma SelfSwitchHangs(m: Machine, dt: real, env: Env, fuel: nat, s: StateId)
    requires env.catching == NoCatching && SelfSwitching(env, s) && !m.watchdogEnabled
    requires m.current == Some(s)
    ensures Update(m, dt, env, fuel).out == Diverged
  {
    var m0 := Started(m, dt);
    SelfSwitchRun(m0, env, fuel, s);
    var f := RunState(m0, env, fuel);
    SelfSwitchLoopHangs(f.m.(enter := false, events := f.m.events + StillUpdating(m)), dt, env,
                        fuel, s);
  }

  /** With the watchdog armed, the same loop ends in the watchdog's exception. */
  lemma {:induction false} SelfSwitchLoopTrips(m: Machine, dt: real, env: Env, fuel: nat,
                                                s: StateId)
    requires env.catching == NoCatching && SelfSwitching(env, s) && WatchdogArmed(m, env.frame)
    requires m.next == Some(s) && fuel > m.watchdogLimit - m.watchdogRuns
    ensures Loop(m, dt, env, fuel).out == Raised(WatchdogTriggered)
    decreases fuel
  {
    var m1 := Entered(m);
    if Watchdog(m1, env.frame).out.Ok? {
      SelfSwitchRun(m1, env, fuel - 1, s);
      var r1 := RunState(m1, env, fuel - 1);
      SelfSwitchLoopTrips(r1.m.(enter := false), 0.0, env, fuel - 1, s);
    } else {
      assert RunState(m1, env, fuel - 1) == Watchdog(m1, env.frame);
    }
  }

  /** So the watchdog turns the hang of a self-switching state into an exception. */
  lemma SelfSwitchTripsWatchdog(m: Machine, dt: real, env: Env, fuel: nat, s: StateId)
    requires env.catching == NoCatching && SelfSwitching(env, s) && m.current == Some(s)
    requires m.watchdogEnabled && m.watchdogLimit > 0 && m.watchdogRuns >= 0
    requires fuel >= m.watchdogLimit
    ensures Update(m, dt, env, fuel).out == Raised(WatchdogTriggered)
  {
    var m0 := Started(m, dt);
    if Watchdog(m0, env.frame).out.Ok? {
      SelfSwitchRun(m0, env, fuel, s);
      var f := RunState(m0, env, fuel);
      SelfSwitchLoopTrips(f.m.(enter := false, events := f.m.events + StillUpdating(m)), dt,
                          env, fuel, s);
    } else {
      assert RunState(m0, env, fuel) == Watchdog(m0, env.frame);
    }
  }
}
